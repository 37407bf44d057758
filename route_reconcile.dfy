/**
 * The reconcile step: ApplyRoute brings the stored route to the desired
 * spec, GetOrCreate only makes sure a route exists. Each method is proved
 * against a pure outcome function, and the lemmas state what the outcome is
 * in each branch.
 */
module RouteReconcile {
  import opened RouteTypes
  import opened RouteStore

  /** The result of merging desired metadata into live metadata, and whether anything changed. */
  datatype MergedMeta = MergedMeta(meta: ObjectMeta, modified: bool)

  /**
   * The two library helpers the reconcile step calls and this model does not
   * define: the metadata merge (live metadata, desired metadata) and the
   * cleaning of labels and annotations before a create. Cleaning touches
   * only metadata, so it is a function on ObjectMeta.
   */
  datatype MetaOps = MetaOps(
    ensureObjectMeta: (ObjectMeta, ObjectMeta) -> MergedMeta,
    cleanLabelsAndAnnotations: ObjectMeta -> ObjectMeta)

  predicate SameIdentity(a: ObjectMeta, b: ObjectMeta) {
    a.namespace == b.namespace && a.name == b.name
  }

  /** Neither helper moves an object to another namespace or name. */
  ghost predicate KeepsIdentity(ops: MetaOps) {
    && (forall m :: SameIdentity(ops.cleanLabelsAndAnnotations(m), m))
    && (forall live, desired :: SameIdentity(live, desired) ==>
          SameIdentity(ops.ensureObjectMeta(live, desired).meta, live))
  }

  /**
   * The helpers settle: merging the desired metadata again into a merge
   * result, or into the cleaned desired metadata, reports no modification.
   */
  ghost predicate Settles(ops: MetaOps) {
    && KeepsIdentity(ops)
    && (forall live, desired ::
          !ops.ensureObjectMeta(ops.ensureObjectMeta(live, desired).meta, desired).modified)
    && (forall desired :: !ops.ensureObjectMeta(ops.cleanLabelsAndAnnotations(desired), desired).modified)
  }

  function RouteOf(r: Result<Route>): Option<Route> {
    if r.Ok? then Some(r.value) else None
  }

  function ErrorOf(r: Result<Route>): Option<StoreError> {
    if r.Err? then Some(r.error) else None
  }

  /** What ApplyRoute returns, and the store after it. */
  datatype Applied = Applied(route: Option<Route>, changed: bool, err: Option<StoreError>, routes: map<Key, Route>)

  /** The desired route as it is created: metadata cleaned, spec as desired. */
  function Cleaned(required: Route, ops: MetaOps): Route {
    required.(meta := ops.cleanLabelsAndAnnotations(required.meta))
  }

  /** The outcome of ApplyRoute on a store holding `routes`. */
  function ApplyRouteOutcome(routes: map<Key, Route>, faults: Faults, required: Route, ops: MetaOps): Applied {
    match Fetch(routes, faults, KeyOf(required))
    case Err(NotFound) =>
      var w := Insert(routes, faults, Cleaned(required, ops));
      Applied(RouteOf(w.result), true, ErrorOf(w.result), w.routes)
    case Err(e) => Applied(None, false, Some(e), routes)
    case Ok(existing) =>
      var merged := ops.ensureObjectMeta(existing.meta, required.meta);
      var existingCopy := existing.(meta := merged.meta);
      if existingCopy.spec == required.spec && !merged.modified then
        Applied(Some(existingCopy), false, None, routes)
      else
        var w := Replace(routes, faults, existingCopy.(spec := required.spec));
        Applied(RouteOf(w.result), true, ErrorOf(w.result), w.routes)
  }

  /**
   * Fetch the route named by `required`; create it (cleaned) when it is
   * missing; pass any other read error through; otherwise merge metadata and,
   * unless both metadata and spec already agree, replace the spec and update.
   */
  method ApplyRoute(client: RouteClient, required: Route, ops: MetaOps)
    returns (actual: Option<Route>, changed: bool, err: Option<StoreError>)
    requires client.Valid()
    modifies client
    ensures client.Valid()
    ensures Applied(actual, changed, err, client.routes)
         == ApplyRouteOutcome(old(client.routes), client.faults, required, ops)
  {
    var existing := client.Get(required.meta.namespace, required.meta.name);
    if existing == Err(NotFound) {
      var requiredCopy := required;
      var created := client.Create(Cleaned(requiredCopy, ops));
      return RouteOf(created), true, ErrorOf(created);
    }
    if existing.Err? {
      return None, false, Some(existing.error);
    }

    var existingCopy := existing.value;
    var merged := ops.ensureObjectMeta(existingCopy.meta, required.meta);
    existingCopy := existingCopy.(meta := merged.meta);
    var specSame := existingCopy.spec == required.spec;

    if specSame && !merged.modified {
      return Some(existingCopy), false, None;
    }

    existingCopy := existingCopy.(spec := required.spec);
    var updated := client.Update(existingCopy);
    return RouteOf(updated), true, ErrorOf(updated);
  }

  /** A read error other than "not found" is returned as it is, unchanged, and nothing is written. */
  lemma ApplyRouteReadFailure(routes: map<Key, Route>, faults: Faults, required: Route, ops: MetaOps)
    requires faults.get.Some?
    ensures ApplyRouteOutcome(routes, faults, required, ops)
         == Applied(None, false, Some(Failed(faults.get.value)), routes)
  {
  }

  /**
   * A missing route is created from the cleaned desired route and reported
   * as changed; a failed create is reported as changed too, with the error
   * and no route, and leaves the store as it was.
   */
  lemma ApplyRouteCreatesMissing(routes: map<Key, Route>, faults: Faults, required: Route, ops: MetaOps)
    requires faults.get.None? && KeyOf(required) !in routes
    requires KeepsIdentity(ops)
    ensures var o := ApplyRouteOutcome(routes, faults, required, ops);
      && o.changed
      && (faults.create.None? ==>
            o.err.None? && o.route == Some(Cleaned(required, ops))
            && o.routes == routes[KeyOf(required) := Cleaned(required, ops)])
      && (faults.create.Some? ==> o == Applied(None, true, Some(Failed(faults.create.value)), routes))
  {
    assert SameIdentity(ops.cleanLabelsAndAnnotations(required.meta), required.meta);
  }

  /**
   * A present route whose spec already equals the desired spec, and whose
   * metadata needs no change, is returned (with the merged metadata) as
   * unchanged, and nothing is written.
   */
  lemma ApplyRouteLeavesConverged(routes: map<Key, Route>, faults: Faults, required: Route, ops: MetaOps)
    requires faults.get.None? && KeyOf(required) in routes
    requires var existing := routes[KeyOf(required)];
      existing.spec == required.spec && !ops.ensureObjectMeta(existing.meta, required.meta).modified
    ensures var existing := routes[KeyOf(required)];
      ApplyRouteOutcome(routes, faults, required, ops)
        == Applied(Some(existing.(meta := ops.ensureObjectMeta(existing.meta, required.meta).meta)), false, None, routes)
  {
  }

  /**
   * A present route whose spec differs, or whose metadata the merge changed,
   * is reported as changed; a successful update stores it with the merged
   * metadata, the desired spec in full and its own status; a failed update
   * returns the error and no route and leaves the store as it was.
   */
  lemma ApplyRouteReplacesDiverged(routes: map<Key, Route>, faults: Faults, required: Route, ops: MetaOps)
    requires Keyed(routes) && KeepsIdentity(ops)
    requires faults.get.None? && KeyOf(required) in routes
    requires var existing := routes[KeyOf(required)];
      existing.spec != required.spec || ops.ensureObjectMeta(existing.meta, required.meta).modified
    ensures var existing := routes[KeyOf(required)];
      var stored := Route(ops.ensureObjectMeta(existing.meta, required.meta).meta, required.spec, existing.status);
      var o := ApplyRouteOutcome(routes, faults, required, ops);
      && o.changed
      && (faults.update.None? ==> o == Applied(Some(stored), true, None, routes[KeyOf(required) := stored]))
      && (faults.update.Some? ==> o == Applied(None, true, Some(Failed(faults.update.value)), routes))
  {
    var existing := routes[KeyOf(required)];
    assert SameIdentity(existing.meta, required.meta);
    assert SameIdentity(ops.ensureObjectMeta(existing.meta, required.meta).meta, existing.meta);
  }

  /** ApplyRoute writes at most the desired route's key and never removes a route. */
  lemma ApplyRouteTouchesOnlyItsKey(routes: map<Key, Route>, faults: Faults, required: Route, ops: MetaOps)
    requires Keyed(routes) && KeepsIdentity(ops)
    ensures var o := ApplyRouteOutcome(routes, faults, required, ops);
      && o.routes.Keys == routes.Keys + (if o.routes == routes then {} else {KeyOf(required)})
      && (forall k :: k in routes && k != KeyOf(required) ==> o.routes[k] == routes[k])
      && (!o.changed ==> o.routes == routes)
  {
    var key := KeyOf(required);
    assert SameIdentity(ops.cleanLabelsAndAnnotations(required.meta), required.meta);
    if faults.get.None? && key in routes {
      var existing := routes[key];
      assert SameIdentity(existing.meta, required.meta);
      assert SameIdentity(ops.ensureObjectMeta(existing.meta, required.meta).meta, existing.meta);
    }
  }

  /**
   * Idempotence: once ApplyRoute has succeeded, calling it again with the
   * same desired route reports no change and writes nothing, provided the
   * metadata helpers settle.
   */
  lemma ApplyRouteIdempotent(routes: map<Key, Route>, faults: Faults, required: Route, ops: MetaOps)
    requires Keyed(routes) && Settles(ops)
    requires ApplyRouteOutcome(routes, faults, required, ops).err.None?
    ensures var first := ApplyRouteOutcome(routes, faults, required, ops);
      var second := ApplyRouteOutcome(first.routes, faults, required, ops);
      !second.changed && second.err.None? && second.routes == first.routes
  {
    var key := KeyOf(required);
    var first := ApplyRouteOutcome(routes, faults, required, ops);
    assert faults.get.None?;
    if key !in routes {
      ApplyRouteCreatesMissing(routes, faults, required, ops);
      var created := Cleaned(required, ops);
      assert first.routes[key] == created;
      assert !ops.ensureObjectMeta(created.meta, required.meta).modified;
    } else {
      var existing := routes[key];
      var merged := ops.ensureObjectMeta(existing.meta, required.meta);
      if existing.spec != required.spec || merged.modified {
        ApplyRouteReplacesDiverged(routes, faults, required, ops);
        assert first.routes[key].meta == merged.meta;
        assert !ops.ensureObjectMeta(merged.meta, required.meta).modified;
      }
    }
  }

  /** What GetOrCreate returns, and the store after it. */
  datatype Ensured = Ensured(route: Option<Route>, isNew: bool, err: Option<StoreError>, routes: map<Key, Route>)

  /** The outcome of GetOrCreate on a store holding `routes`. */
  function GetOrCreateOutcome(routes: map<Key, Route>, faults: Faults, required: Route): Ensured {
    match Fetch(routes, faults, KeyOf(required))
    case Err(NotFound) =>
      var w := Insert(routes, faults, required);
      if w.result.Err? then Ensured(None, true, Some(w.result.error), w.routes)
      else Ensured(Some(w.result.value), true, None, w.routes)
    case Err(e) => Ensured(None, false, Some(e), routes)
    case Ok(found) => Ensured(Some(found), false, None, routes)
  }

  /**
   * Make sure the route exists: fetch it; on "not found" create exactly the
   * route given; on any error return no route.
   */
  method GetOrCreate(client: RouteClient, required: Route)
    returns (route: Option<Route>, isNew: bool, err: Option<StoreError>)
    requires client.Valid()
    modifies client
    ensures client.Valid()
    ensures Ensured(route, isNew, err, client.routes) == GetOrCreateOutcome(old(client.routes), client.faults, required)
  {
    isNew := false;
    var got := client.Get(required.meta.namespace, required.meta.name);
    if got == Err(NotFound) {
      isNew := true;
      got := client.Create(required);
    }

    if got.Err? {
      return None, isNew, Some(got.error);
    }
    return Some(got.value), isNew, None;
  }

  /**
   * GetOrCreate reports a new route exactly when the read said "not found";
   * it returns no route exactly when it returns an error; a route that is
   * present comes back as stored.
   */
  lemma GetOrCreateReportsNew(routes: map<Key, Route>, faults: Faults, required: Route)
    ensures var o := GetOrCreateOutcome(routes, faults, required);
      && (o.isNew <==> faults.get.None? && KeyOf(required) !in routes)
      && (o.route.None? <==> o.err.Some?)
      && (faults.get.None? && KeyOf(required) in routes ==> o.route == Some(routes[KeyOf(required)]))
      && (o.isNew && faults.create.None? ==> o.route == Some(required))
  {
  }

  /** GetOrCreate never modifies or removes a route that is already stored. */
  lemma GetOrCreateKeepsExisting(routes: map<Key, Route>, faults: Faults, required: Route)
    ensures var o := GetOrCreateOutcome(routes, faults, required);
      && (KeyOf(required) in routes ==> o.routes == routes)
      && (forall k :: k in routes ==> k in o.routes && o.routes[k] == routes[k])
  {
  }
}
