/**
 * The spec builders: the desired `console` route and the custom-hostname
 * route, each a pure function of the Console configuration (and, for the
 * custom route, an optional certificate and key).
 */
module RouteBuilders {
  import opened RouteTypes

  // Stand-ins for the operator's util helpers (that package is not part of
  // this model): the metadata every console resource starts from, the owner
  // reference back to the Console configuration, and appending that reference.

  function SharedMeta(): ObjectMeta {
    ObjectMeta(OpenShiftConsoleNamespace, OpenShiftConsoleName, map[], map[], [])
  }

  function OwnerRefFrom(cr: Option<Console>): Option<OwnerReference> {
    match cr
    case None => None
    case Some(c) => Some(OwnerReference("Console", c.name, c.uid, true))
  }

  function AddOwnerRef(meta: ObjectMeta, ref: Option<OwnerReference>): ObjectMeta {
    match ref
    case None => meta
    case Some(r) => meta.(ownerReferences := meta.ownerReferences + [r])
  }

  /** A custom route is requested when a Console configuration exists and names a hostname. */
  function IsCustomRouteSet(cr: Option<Console>): (isSet: bool)
    ensures isSet <==> cr.Some? && cr.value.spec.route.hostname != []
  {
    match cr
    case None => false
    case Some(c) => |c.spec.route.hostname| != 0
  }

  /** A custom certificate is requested when a Console configuration exists and names a secret. */
  function IsCustomRouteSecretSet(cr: Option<Console>): (isSet: bool)
    ensures isSet <==> cr.Some? && cr.value.spec.route.secret.name != []
  {
    match cr
    case None => false
    case Some(c) => |c.spec.route.secret.name| != 0
  }

  function ToService(serviceName: string): RouteTargetReference {
    RouteTargetReference(ServiceKind, serviceName, Some(ServiceWeight))
  }

  function Port(name: string): Option<RoutePort> {
    Some(RoutePort(name))
  }

  /**
   * TLS settings with the given termination; plain HTTP is always redirected,
   * and the certificate and key come from the custom pair when one is given.
   */
  function Tls(tlsConfig: Option<CustomTLSCert>, termination: TLSTermination): (tls: Option<TLSConfig>)
    ensures tls.Some? && tls.value.termination == termination
    ensures tls.value.insecureEdgeTerminationPolicy == InsecureRedirect
    ensures tlsConfig.Some? ==> tls.value.certificate == tlsConfig.value.certificate && tls.value.key == tlsConfig.value.key
    ensures tlsConfig.None? ==> tls.value.certificate == "" && tls.value.key == ""
  {
    var cert := if tlsConfig.Some? then tlsConfig.value.certificate else "";
    var key := if tlsConfig.Some? then tlsConfig.value.key else "";
    Some(TLSConfig(termination, cert, key, InsecureRedirect))
  }

  function Wildcard(): WildcardPolicy {
    WildcardNone
  }

  /**
   * The `console` route. With a custom hostname configured it sends traffic
   * to the redirect service on the redirect port with edge termination;
   * otherwise to the console service on the console port with re-encrypt
   * termination. Either way it has no fixed host, no wildcard, no custom
   * certificate, and carries the owner reference of the configuration.
   */
  function DefaultRoute(cr: Option<Console>): (route: Route)
    ensures IsCustomRouteSet(cr) ==>
      && route.spec.to.name == OpenshiftConsoleRedirectServiceName
      && route.spec.port == Some(RoutePort(RedirectContainerPortName))
      && route.spec.tls.Some? && route.spec.tls.value.termination == Edge
    ensures !IsCustomRouteSet(cr) ==>
      && route.spec.to.name == OpenShiftConsoleServiceName
      && route.spec.port == Some(RoutePort(ConsoleContainerPortName))
      && route.spec.tls.Some? && route.spec.tls.value.termination == Reencrypt
    ensures route.spec.host == "" && route.spec.wildcardPolicy == WildcardNone
    ensures route.spec.tls.Some? && route.spec.tls.value.certificate == "" && route.spec.tls.value.key == ""
    ensures route.meta.namespace == OpenShiftConsoleNamespace && route.meta.name == OpenShiftConsoleName
    ensures cr.Some? ==> route.meta.ownerReferences == [OwnerReference("Console", cr.value.name, cr.value.uid, true)]
    ensures cr.None? ==> route.meta.ownerReferences == []
    ensures route.status.ingress == []
  {
    var custom := IsCustomRouteSet(cr);
    var usePort := if custom then RedirectContainerPortName else ConsoleContainerPortName;
    var tlsTermination := if custom then Edge else Reencrypt;
    var serviceName := if custom then OpenshiftConsoleRedirectServiceName else OpenShiftConsoleServiceName;
    var spec := RouteSpec("", ToService(serviceName), Port(usePort), Tls(None, tlsTermination), Wildcard());
    Route(AddOwnerRef(SharedMeta(), OwnerRefFrom(cr)), spec, RouteStatus([]))
  }

  /**
   * The custom route: always the console service on the console port with
   * re-encrypt termination, at exactly the configured hostname, with the
   * custom certificate and key when given.
   */
  function CustomRoute(cr: Console, tlsConfig: Option<CustomTLSCert>): (route: Route)
    ensures route.spec.host == cr.spec.route.hostname
    ensures route.spec.to.name == OpenShiftConsoleServiceName
    ensures route.spec.port == Some(RoutePort(ConsoleContainerPortName))
    ensures route.spec.tls.Some? && route.spec.tls.value.termination == Reencrypt
    ensures tlsConfig.Some? ==>
      route.spec.tls.value.certificate == tlsConfig.value.certificate && route.spec.tls.value.key == tlsConfig.value.key
    ensures tlsConfig.None? ==> route.spec.tls.value.certificate == "" && route.spec.tls.value.key == ""
    ensures route.spec.wildcardPolicy == WildcardNone
    ensures route.meta.namespace == OpenShiftConsoleNamespace && route.meta.name == OpenshiftConsoleCustomRouteName
    ensures route.meta.ownerReferences == [OwnerReference("Console", cr.name, cr.uid, true)]
    ensures route.status.ingress == []
  {
    var meta := SharedMeta().(name := OpenshiftConsoleCustomRouteName);
    var spec := RouteSpec(
      cr.spec.route.hostname,
      ToService(OpenShiftConsoleServiceName),
      Port(ConsoleContainerPortName),
      Tls(tlsConfig, Reencrypt),
      Wildcard());
    Route(AddOwnerRef(meta, OwnerRefFrom(Some(cr))), spec, RouteStatus([]))
  }

  /** Every route either builder produces: a weighted Service backend, a port, TLS that redirects plain HTTP. */
  predicate WellShaped(route: Route) {
    && route.spec.to.kind == ServiceKind
    && route.spec.to.weight == Some(ServiceWeight)
    && route.spec.port.Some?
    && route.spec.tls.Some?
    && route.spec.tls.value.insecureEdgeTerminationPolicy == InsecureRedirect
    && route.spec.wildcardPolicy == WildcardNone
  }

  lemma BuiltRoutesAreWellShaped(cr: Option<Console>, custom: Console, tlsConfig: Option<CustomTLSCert>)
    ensures WellShaped(DefaultRoute(cr)) && WellShaped(CustomRoute(custom, tlsConfig))
  {
  }

  /** The default route targets the redirect service exactly when a custom hostname is configured. */
  lemma DefaultRouteRedirectsIffCustom(cr: Option<Console>)
    ensures DefaultRoute(cr).spec.to.name == OpenshiftConsoleRedirectServiceName <==> IsCustomRouteSet(cr)
    ensures DefaultRoute(cr).spec.tls.value.termination == Edge <==> IsCustomRouteSet(cr)
    ensures DefaultRoute(cr).spec.port == Some(RoutePort(RedirectContainerPortName)) <==> IsCustomRouteSet(cr)
  {
  }

  /**
   * With a custom hostname configured the two routes split the work: the
   * custom route serves the console at that hostname, and the default route
   * only redirects, so they never name the same backend.
   */
  lemma CustomHostnameSplitsTraffic(cr: Console, tlsConfig: Option<CustomTLSCert>)
    requires IsCustomRouteSet(Some(cr))
    ensures CustomRoute(cr, tlsConfig).spec.host != ""
    ensures CustomRoute(cr, tlsConfig).spec.to.name != DefaultRoute(Some(cr)).spec.to.name
    ensures CustomRoute(cr, tlsConfig).meta.name != DefaultRoute(Some(cr)).meta.name
  {
  }
}
