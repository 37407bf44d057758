# Console route reconciliation, modelled in Dafny

This project models the route logic of the OpenShift console operator, in
`pkg/console/subresource/route/route.go`. That logic has three parts:

- **Status reader** (`route_status.dfy`, module `RouteStatusReader`). `GetCanonicalHost` returns the
  host of the first ingress entry that comes from the `default` ingress
  controller and has been admitted. `IsAdmitted` is true when any entry,
  from any controller, has been admitted. An entry is admitted when one of
  its conditions has type `Admitted` and status `"True"`.
- **Spec builders** (`route_builders.dfy`, module `RouteBuilders`). `DefaultRoute` builds the `console`
  route. With a custom hostname configured, it points at the redirect
  service and port and uses edge termination. Otherwise it points at the
  console service and port and uses re-encrypt termination. `CustomRoute`
  builds the custom-hostname route. It always points at the console service
  with re-encrypt termination, and it takes the certificate and key from an
  optional custom pair.
- **Reconcile step** (`route_reconcile.dfy`, module `RouteReconcile`). `ApplyRoute` fetches the route and
  then does one of four things. It creates the route if it is missing. It
  passes any other read error through. It leaves the route alone if the
  metadata and spec already match. Otherwise it replaces the spec and
  updates the route. `GetOrCreate` only fetches the route, or creates it when
  it is missing.

The routes API is a `RouteClient` class (`route_store.dfy`). It holds a
`map` from (namespace, name) to route. Its get, create and update calls can
each be made to fail with an error other than "not found". The two
reconcile operations are methods that change this map. Each is proved equal
to a pure outcome function (`ApplyRouteOutcome`, `GetOrCreateOutcome`), and
the lemmas describe that function branch by branch.

Two library helpers are called by `ApplyRoute` but are not part of this
model: the metadata merge and the label/annotation cleaning. They are
passed in as function values (`MetaOps`). The idempotence lemma assumes they
*settle*: merging the same desired metadata a second time reports no
modification. `meta_merge.dfy` defines an illustrative additive merge. It shows that this assumption can be met, and that
such a merge never deletes a live label or annotation.

The shared data model (route metadata, spec and status; the Console
configuration; the names used) is in `route_types.dfy`.

## Model

| member | source | states |
|---|---|---|
| `RouteStatusReader.AdmittedFoldFindsAny` | pkg/console/subresource/route/route.go:186-192 | The admitted flag folded over the conditions ends true iff it started true or some condition is an Admitted/"True" condition. A later condition never lowers it. |
| `RouteStatusReader.IsIngressAdmitted` | pkg/console/subresource/route/route.go:185-193 | An entry is admitted iff at least one of its conditions has type Admitted and status "True". A missing condition or any other status means not admitted. |
| `RouteStatusReader.GetCanonicalHost` | pkg/console/subresource/route/route.go:155-171 | The result is "" or the host of some admitted entry of the default controller. |
| `RouteStatusReader.CanonicalHostIsFirstMatch` | pkg/console/subresource/route/route.go:156-167 | If entry i is an admitted default-controller entry and no earlier entry is one, the canonical host is entry i's host. |
| `RouteStatusReader.CanonicalHostEmptyWithoutDefault` | pkg/console/subresource/route/route.go:155-171 | With no admitted default-controller entry, the canonical host is "". This holds even if other controllers admitted the route with a host. |
| `RouteStatusReader.CanonicalHostIgnoresOtherRouters` | pkg/console/subresource/route/route.go:156-160 | Removing every entry of a non-default controller leaves the canonical host unchanged. |
| `RouteStatusReader.IsAdmitted` | pkg/console/subresource/route/route.go:176-183 | True iff some entry, from any controller, is admitted. |
| `RouteStatusReader.CanonicalHostImpliesAdmitted` | pkg/console/subresource/route/route.go:155-183 | A non-empty canonical host implies that the route is admitted. |
| `RouteStatusReader.AdmittedByOtherRouterOnly` | pkg/console/subresource/route/route.go:155-183 | If some entry of another controller is admitted and no default-controller entry is admitted, the route is admitted and its canonical host is "". |
| `RouteBuilders.IsCustomRouteSet` | pkg/console/subresource/route/route.go:195-200 | False for a missing configuration. Otherwise true iff the configured hostname is non-empty. |
| `RouteBuilders.IsCustomRouteSecretSet` | pkg/console/subresource/route/route.go:202-208 | False for a missing configuration. Otherwise true iff the configured secret name is non-empty. |
| `RouteBuilders.Tls` | pkg/console/subresource/route/route.go:139-149 | TLS is present with the requested termination and redirects plain HTTP. Certificate and key are copied from the custom pair when one is given, and are empty otherwise. |
| `RouteBuilders.DefaultRoute` | pkg/console/subresource/route/route.go:83-101 | With a custom hostname: redirect service, redirect port, edge termination. Without one: console service, console port, re-encrypt termination. In both cases: no host, wildcard None, no certificate or key, the shared console name and namespace, and the owner reference of the configuration. |
| `RouteBuilders.CustomRoute` | pkg/console/subresource/route/route.go:110-122 | Console service, console port, re-encrypt termination, and host equal to the configured hostname. Certificate and key come from the custom pair or are empty. The route has the custom route name and the configuration's owner reference. |
| `RouteBuilders.BuiltRoutesAreWellShaped` | pkg/console/subresource/route/route.go:124-153 | Every built route targets kind Service with weight 100, has a port, has wildcard policy None, and has TLS that redirects insecure traffic. |
| `RouteBuilders.DefaultRouteRedirectsIffCustom` | pkg/console/subresource/route/route.go:85-92 | The default route uses the redirect service, edge termination and the redirect port, each iff a custom hostname is configured. |
| `RouteBuilders.CustomHostnameSplitsTraffic` | pkg/console/subresource/route/route.go:79-122 | With a custom hostname, the custom route has a non-empty host. It also differs from the default route in both backend service and route name. |
| `RouteReconcile.ApplyRoute` | pkg/console/subresource/route/route.go:36-60 | The returned route, changed flag and error, and the store afterwards, are exactly `ApplyRouteOutcome` of the store before the call. The store stays keyed by namespace and name. |
| `RouteReconcile.ApplyRouteReadFailure` | pkg/console/subresource/route/route.go:43-45 | A read error other than not-found returns no route, changed=false and that error, and writes nothing. |
| `RouteReconcile.ApplyRouteCreatesMissing` | pkg/console/subresource/route/route.go:38-42 | On not-found the cleaned desired route is created and returned with changed=true. A failed create still reports changed=true, with the error and no route, and leaves the store as it was. |
| `RouteReconcile.ApplyRouteLeavesConverged` | pkg/console/subresource/route/route.go:47-55 | If the stored spec equals the desired spec and the merge reports no modification, the merged copy is returned with changed=false and nothing is written. |
| `RouteReconcile.ApplyRouteReplacesDiverged` | pkg/console/subresource/route/route.go:50-59 | If the spec differs or the merge modified the metadata, changed=true. A successful update stores the merged metadata, the whole desired spec and the route's own status. A failed update returns the error and no route and writes nothing. |
| `RouteReconcile.ApplyRouteTouchesOnlyItsKey` | pkg/console/subresource/route/route.go:36-60 | Only the desired route's key is written. No route is removed. A call reporting changed=false leaves the store unchanged. |
| `RouteReconcile.ApplyRouteIdempotent` | pkg/console/subresource/route/route.go:36-60 | After a successful call, a second call with the same desired route returns changed=false with no error and writes nothing, provided the metadata helpers settle. |
| `RouteReconcile.GetOrCreate` | pkg/console/subresource/route/route.go:65-77 | The returned route, isNew flag and error, and the store afterwards, are exactly `GetOrCreateOutcome` of the store before the call. |
| `RouteReconcile.GetOrCreateReportsNew` | pkg/console/subresource/route/route.go:66-76 | isNew is true iff the read said not-found. No route is returned iff an error is returned. A present route is returned as stored. A successful create returns exactly the given route. |
| `RouteReconcile.GetOrCreateKeepsExisting` | pkg/console/subresource/route/route.go:65-77 | No route that is already stored is modified or removed. When the desired route is present, the store is left exactly as it was. |
| `MetaMerge.MergeMeta` | pkg/console/subresource/route/route.go:48-49 | The additive stand-in merge keeps every live label, annotation and owner reference. Desired values win. The modified flag is true iff the metadata changed. |
| `MetaMerge.AdditiveOpsSettle` | pkg/console/subresource/route/route.go:47-52 | The additive merge with identity cleaning meets the hypotheses of `ApplyRouteIdempotent`, so that lemma is not vacuous. |

## Left out

- Logging through `klog` and the unused `events.Recorder` parameter are left out: they are diagnostics only.
- The context, the `metav1` options and the real API server are left out. The routes client is a map-backed `RouteClient` whose failures are injected through `Faults`.
- Optimistic concurrency and conflicts are left out. A write by someone else between the read and the write is not modelled, and neither is the caller's retry loop.
- `resourcemerge.EnsureObjectMeta` and `resourcemerge.WithCleanLabelsAndAnnotations` come from library-go, which is not part of this model. They are parameters (`MetaOps`); the only things assumed about them are what `KeepsIdentity` and `Settles` state, and only where a lemma requires it. `MetaMerge` is an illustrative additive merge. It is not library-go's code, which also honours key-removal markers.
- The operator's `pkg/api` constants are not part of this model, and neither are the `util` helpers `SharedMeta`, `OwnerRefFrom` and `AddOwnerRef`. The constants are stand-in strings; `OpenShiftConsoleName` and `OpenShiftConsoleServiceName` are both "console". The pairs the proofs compare are distinct: the console and redirect service names, the console and redirect port names, and the default and custom route names. The helpers are simple stand-ins: a fixed console name and namespace with no labels, an owner reference built from the Console's name and UID, and appending that reference when one exists. `DefaultStub` is folded into the two builders.
- `equality.Semantic.DeepEqual` on specs is structural equality of the `RouteSpec` datatype.
- Only some route fields are modelled. The spec has host, target, port, TLS and wildcard policy; path, subdomain and alternate backends are not modelled. The status has only its ingress list. A condition has only its type and status.
- The status readers take `route.Status.Ingress`, the only part of the route they read, instead of the whole route.
- `intstr.FromString`, pointers and deep copies are not modelled. The target port is a plain string, optional pointers are `Option`, and copies are values. The weight is the 32-bit integer 100, which needs no wrap-around.
- The object that the client returns next to a failed create or update is not modelled. `ApplyRoute` and `GetOrCreate` return no route in that case.
- Create and update store an object under its own namespace and name. The source passes `required.Namespace` to the client for the update. The two agree whenever the merge keeps the live object's identity (`KeepsIdentity`).
- `CustomRoute` takes a Console value rather than a nullable pointer. The source dereferences the pointer without a nil check.
- ApplyRouteIdempotent: holds only under the `Settles` hypothesis on the library helpers, because their behaviour is not part of this model.

Two points where the model's behaviour is easy to miss:

- On a create or update failure, `ApplyRoute` still reports changed=true together with the error.
- In the no-change branch, `ApplyRoute` returns the live copy *after* the metadata merge, not the fetched object itself.
