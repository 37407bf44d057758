/**
 * The status reader: what the ingress controllers' reports on a route say
 * about its canonical host and whether it has been admitted. Each function
 * takes the route's status.ingress list, the only part of the route it reads.
 */
module RouteStatusReader {
  import opened RouteTypes

  /** A condition that reports the route as admitted. */
  predicate IsConditionAdmitted(c: RouteIngressCondition) {
    c.conditionType == RouteAdmitted && c.status == ConditionTrue
  }

  /** The loop over the conditions: the flag is raised by an admitting condition and never lowered. */
  function AdmittedFold(conditions: seq<RouteIngressCondition>, admitted: bool): bool {
    if conditions == [] then admitted
    else AdmittedFold(conditions[1..], admitted || IsConditionAdmitted(conditions[0]))
  }

  lemma {:induction false} AdmittedFoldFindsAny(conditions: seq<RouteIngressCondition>, admitted: bool)
    ensures AdmittedFold(conditions, admitted)
        <==> admitted || exists k :: 0 <= k < |conditions| && IsConditionAdmitted(conditions[k])
  {
    if conditions != [] {
      var rest := conditions[1..];
      AdmittedFoldFindsAny(rest, admitted || IsConditionAdmitted(conditions[0]));
      if exists k :: 0 <= k < |rest| && IsConditionAdmitted(rest[k]) {
        var k :| 0 <= k < |rest| && IsConditionAdmitted(rest[k]);
        assert conditions[k + 1] == rest[k];
      }
      if exists k :: 0 <= k < |conditions| && IsConditionAdmitted(conditions[k]) {
        var k :| 0 <= k < |conditions| && IsConditionAdmitted(conditions[k]);
        if k > 0 {
          assert rest[k - 1] == conditions[k];
        }
      }
    }
  }

  /**
   * An ingress entry is admitted exactly when one of its conditions is an
   * Admitted condition with status "True", wherever it stands in the list.
   */
  function IsIngressAdmitted(ingress: RouteIngress): (admitted: bool)
    ensures admitted <==> exists k :: 0 <= k < |ingress.conditions| && IsConditionAdmitted(ingress.conditions[k])
  {
    AdmittedFoldFindsAny(ingress.conditions, false);
    AdmittedFold(ingress.conditions, false)
  }

  /** An entry from the default ingress controller that has admitted the route. */
  predicate ServesDefault(ingress: RouteIngress) {
    ingress.routerName == DefaultIngressController && IsIngressAdmitted(ingress)
  }

  /** No entry before position i serves the route on the default controller. */
  predicate NoneServesBefore(ingress: seq<RouteIngress>, i: nat)
    requires i <= |ingress|
  {
    forall j :: 0 <= j < i ==> !ServesDefault(ingress[j])
  }

  /**
   * The host reported by the first admitted entry of the default ingress
   * controller, or "" when there is none. The result is always either empty
   * or the host of such an entry.
   */
  function GetCanonicalHost(ingress: seq<RouteIngress>): (host: string)
    ensures host == "" || exists i :: 0 <= i < |ingress| && ServesDefault(ingress[i]) && ingress[i].host == host
  {
    if ingress == [] then ""
    else if ingress[0].routerName != DefaultIngressController then GetCanonicalHost(ingress[1..])
    else if !IsIngressAdmitted(ingress[0]) then GetCanonicalHost(ingress[1..])
    else ingress[0].host
  }

  /** The route is admitted when any entry, from any ingress controller, is admitted. */
  function IsAdmitted(ingress: seq<RouteIngress>): (admitted: bool)
    ensures admitted <==> exists i :: 0 <= i < |ingress| && IsIngressAdmitted(ingress[i])
  {
    if ingress == [] then false
    else if IsIngressAdmitted(ingress[0]) then true
    else IsAdmitted(ingress[1..])
  }

  /** The canonical host is the host of the first admitted default-controller entry, in list order. */
  lemma {:induction false} CanonicalHostIsFirstMatch(ingress: seq<RouteIngress>, i: nat)
    requires i < |ingress| && ServesDefault(ingress[i]) && NoneServesBefore(ingress, i)
    ensures GetCanonicalHost(ingress) == ingress[i].host
  {
    if i > 0 {
      assert !ServesDefault(ingress[0]);
      var rest := ingress[1..];
      assert rest[i - 1] == ingress[i];
      forall j | 0 <= j < i - 1 ensures !ServesDefault(rest[j]) {
        assert rest[j] == ingress[j + 1];
      }
      CanonicalHostIsFirstMatch(rest, i - 1);
    }
  }

  /** Without an admitted default-controller entry the canonical host is "". */
  lemma {:induction false} CanonicalHostEmptyWithoutDefault(ingress: seq<RouteIngress>)
    requires NoneServesBefore(ingress, |ingress|)
    ensures GetCanonicalHost(ingress) == ""
  {
    if ingress != [] {
      var rest := ingress[1..];
      forall j | 0 <= j < |rest| ensures !ServesDefault(rest[j]) {
        assert rest[j] == ingress[j + 1];
      }
      CanonicalHostEmptyWithoutDefault(rest);
    }
  }

  /** The entries of the default ingress controller, in order. */
  function DefaultEntries(ingress: seq<RouteIngress>): (entries: seq<RouteIngress>)
    ensures forall e :: e in entries <==> e in ingress && e.routerName == DefaultIngressController
  {
    if ingress == [] then []
    else if ingress[0].routerName == DefaultIngressController then [ingress[0]] + DefaultEntries(ingress[1..])
    else DefaultEntries(ingress[1..])
  }

  /**
   * Only the default controller's entries are authoritative: dropping every
   * other controller's entry leaves the canonical host as it was.
   */
  lemma {:induction false} CanonicalHostIgnoresOtherRouters(ingress: seq<RouteIngress>)
    ensures GetCanonicalHost(ingress) == GetCanonicalHost(DefaultEntries(ingress))
  {
    if ingress != [] {
      CanonicalHostIgnoresOtherRouters(ingress[1..]);
      if ingress[0].routerName == DefaultIngressController {
        assert ([ingress[0]] + DefaultEntries(ingress[1..]))[1..] == DefaultEntries(ingress[1..]);
      }
    }
  }

  /** A non-empty canonical host implies the route is admitted; the converse fails (see below). */
  lemma CanonicalHostImpliesAdmitted(ingress: seq<RouteIngress>)
    ensures GetCanonicalHost(ingress) != "" ==> IsAdmitted(ingress)
  {
  }

  /**
   * The asymmetry between the two readers: when only other controllers have
   * admitted the route, it is admitted but has no canonical host.
   */
  lemma AdmittedByOtherRouterOnly(ingress: seq<RouteIngress>, i: nat)
    requires i < |ingress| && ingress[i].routerName != DefaultIngressController && IsIngressAdmitted(ingress[i])
    requires NoneServesBefore(ingress, |ingress|)
    ensures GetCanonicalHost(ingress) == "" && IsAdmitted(ingress)
  {
    CanonicalHostEmptyWithoutDefault(ingress);
  }
}
