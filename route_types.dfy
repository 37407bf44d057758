/**
 * The data model the console operator's route logic works on: the parts of
 * an OpenShift Route (metadata, spec, status), the operator's Console
 * configuration, and the identifiers the route logic uses.
 */
module RouteTypes {

  datatype Option<+T> = None | Some(value: T)

  // Names from the operator's api package. That package is not part of this
  // model; these are stand-in values. The proofs rely only on the console and
  // redirect service names, the console and redirect port names, and the
  // default and custom route names being distinct.
  const OpenShiftConsoleName: string := "console"
  const OpenShiftConsoleNamespace: string := "openshift-console"
  const OpenShiftConsoleServiceName: string := "console"
  const OpenshiftConsoleRedirectServiceName: string := "console-redirect"
  const OpenshiftConsoleCustomRouteName: string := "console-custom"
  const ConsoleContainerPortName: string := "https"
  const RedirectContainerPortName: string := "custom-route-redirect"

  /** The out-of-the-box ingress controller; only its status entries give the host. */
  const DefaultIngressController: string := "default"

  // Condition type and status values of the route and core APIs.
  const RouteAdmitted: string := "Admitted"
  const ConditionTrue: string := "True"

  /** Kind and weight of every backend reference the builders produce. */
  const ServiceKind: string := "Service"
  const ServiceWeight: int := 100

  datatype TLSTermination = Edge | Passthrough | Reencrypt

  /** What happens to plain-HTTP traffic on a TLS route; unset is the empty string in the API. */
  datatype InsecureEdgeTerminationPolicy = InsecureUnset | InsecureNone | InsecureAllow | InsecureRedirect

  datatype WildcardPolicy = WildcardNone | WildcardSubdomain

  /** The backend a route sends traffic to; the weight is an optional 32-bit integer. */
  datatype RouteTargetReference = RouteTargetReference(kind: string, name: string, weight: Option<int>)

  /** The target port, by name. */
  datatype RoutePort = RoutePort(targetPort: string)

  datatype TLSConfig = TLSConfig(
    termination: TLSTermination,
    certificate: string,
    key: string,
    insecureEdgeTerminationPolicy: InsecureEdgeTerminationPolicy)

  /** The desired state of a route; port and tls are optional as in the API. */
  datatype RouteSpec = RouteSpec(
    host: string,
    to: RouteTargetReference,
    port: Option<RoutePort>,
    tls: Option<TLSConfig>,
    wildcardPolicy: WildcardPolicy)

  datatype RouteIngressCondition = RouteIngressCondition(conditionType: string, status: string)

  /** One ingress controller's report about the route. */
  datatype RouteIngress = RouteIngress(host: string, routerName: string, conditions: seq<RouteIngressCondition>)

  datatype RouteStatus = RouteStatus(ingress: seq<RouteIngress>)

  datatype OwnerReference = OwnerReference(kind: string, name: string, uid: string, controller: bool)

  datatype ObjectMeta = ObjectMeta(
    namespace: string,
    name: string,
    labels: map<string, string>,
    annotations: map<string, string>,
    ownerReferences: seq<OwnerReference>)

  datatype Route = Route(meta: ObjectMeta, spec: RouteSpec, status: RouteStatus)

  // The operator's Console configuration, reduced to what the route logic reads.
  datatype SecretNameReference = SecretNameReference(name: string)
  datatype ConsoleRouteConfig = ConsoleRouteConfig(hostname: string, secret: SecretNameReference)
  datatype ConsoleSpec = ConsoleSpec(route: ConsoleRouteConfig)
  datatype Console = Console(name: string, uid: string, spec: ConsoleSpec)

  /** A custom TLS certificate and its private key. */
  datatype CustomTLSCert = CustomTLSCert(certificate: string, key: string)
}
