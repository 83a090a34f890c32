/**
 The decision logic of the lazy-xds namespace controller.

 The controller watches namespaces. For every reconcile request it re-reads the
 namespace, and when the namespace carries the annotation `lazy-xds: "true"` it
 asks for the default sidecar of that namespace to be created (the
 controller's own comment calls this a bootstrap configMap for the sidecar
 proxies). Reading the namespace and creating
 the sidecar are I/O against the cluster; here the read is an input (its
 result, `Fetch`) and the creation is an output (the name it is requested for).
 */
module NamespaceController {

  datatype Option<+T> = None | Some(value: T)

  /** A namespace as far as this controller looks at it. A nil annotation map
      of the cluster object is the empty map here. */
  datatype Namespace = Namespace(name: string, annotations: map<string, string>)

  /** The result of fetching the namespace named by a reconcile request. A
      failed fetch is represented only by its error's `%+v` text, since that
      text is all the controller passes on. */
  datatype Fetch =
    | NotFound
    | FetchErr(cause: string)
    | Found(ns: Namespace)

  /** The part of the scheduling answer a reconciler gives its driver:
      whether to requeue, and after how long (a duration, 0 when unset). */
  datatype ReconcileResult = ReconcileResult(requeue: bool, requeueAfter: nat)

  /** The zero value of the scheduling answer: neither requeue nor delay. */
  const EmptyResult := ReconcileResult(false, 0)

  /** Everything one reconcile decides: the scheduling answer, the error it
      returns (its message, if any), and the namespace name, if any, for which
      it asks the default sidecar to be created. */
  datatype Outcome = Outcome(result: ReconcileResult, err: Option<string>, create: Option<string>)

  /** The annotation a namespace opts in with, and the one value that opts in. */
  const OptInKey: string := "lazy-xds"
  const OptInValue: string := "true"

  /** The prefix the controller puts in front of a failed fetch's cause. */
  const FetchErrPrefix: string := "could not fetch Namespace: "

  /** Indexing a map with a missing key yields the empty string. */
  function AnnotationValue(annotations: map<string, string>, key: string): (v: string)
  {
    if key in annotations then annotations[key] else ""
  }

  /** The opt-in policy: exactly the string "true" under the opt-in key. */
  predicate ShouldHandle(annotations: map<string, string>)
    ensures ShouldHandle(annotations) <==> OptInKey in annotations && annotations[OptInKey] == OptInValue
  {
    AnnotationValue(annotations, OptInKey) == OptInValue
  }

  /** One reconcile, given what fetching the requested namespace returned. */
  function Reconcile(fetch: Fetch): (o: Outcome)
    // every path answers with the zero scheduling result: no requeue, no delay
    ensures o.result == EmptyResult
    // an error is returned exactly when the fetch failed for a reason other
    // than NotFound; it is a new error whose message holds the cause's text
    ensures o.err.Some? <==> fetch.FetchErr?
    ensures fetch.FetchErr? ==> o.err.value == FetchErrPrefix + fetch.cause
    // a create is requested only for a found, opted-in namespace, under its
    // own name, and then always
    ensures o.create.Some? <==> fetch.Found? && ShouldHandle(fetch.ns.annotations)
    ensures o.create.Some? ==> o.create.value == fetch.ns.name
    // error and create exclude each other
    ensures !(o.err.Some? && o.create.Some?)
  {
    match fetch
    case NotFound => Outcome(EmptyResult, None, None)
    case FetchErr(cause) => Outcome(EmptyResult, Some(FetchErrPrefix + cause), None)
    case Found(ns) =>
      // the result of the creation is discarded, so it cannot fail this call
      var create := if ShouldHandle(ns.annotations) then Some(ns.name) else None;
      Outcome(EmptyResult, None, create)
  }

  /** The notifications the controller watches. */
  datatype Event =
    | CreateEvent(obj: Namespace)
    | UpdateEvent(objOld: Namespace, objNew: Namespace)

  /** The create filter of the watch. */
  predicate AcceptCreate(e: Event)
    requires e.CreateEvent?
    ensures AcceptCreate(e)
  {
    true
  }

  /** The update filter of the watch. */
  predicate AcceptUpdate(e: Event)
    requires e.UpdateEvent?
    ensures AcceptUpdate(e)
  {
    true
  }

  /** The watch filter for any watched notification. */
  predicate Accept(e: Event)
    ensures Accept(e)
  {
    match e
    case CreateEvent(_) => AcceptCreate(e)
    case UpdateEvent(_, _) => AcceptUpdate(e)
  }

  /** Annotations other than the opt-in key do not influence the policy,
      whether they are added, changed or removed. */
  lemma ShouldHandleIgnoresOtherKeys(annotations: map<string, string>, k: string, v: string)
    requires k != OptInKey
    ensures ShouldHandle(annotations[k := v]) <==> ShouldHandle(annotations)
    ensures ShouldHandle(annotations - {k}) <==> ShouldHandle(annotations)
  {
  }

  /** The match is exact and case-sensitive: any other value is rejected,
      as is a missing key. */
  lemma ShouldHandleExactMatch(annotations: map<string, string>, v: string)
    requires v != OptInValue
    ensures !ShouldHandle(annotations[OptInKey := v])
    ensures !ShouldHandle(annotations - {OptInKey})
    ensures ShouldHandle(annotations[OptInKey := OptInValue])
  {
  }

  /** The values a reader might mistake for "true" are all rejected. */
  lemma ShouldHandleRejectsNearMisses()
    ensures !ShouldHandle(map[OptInKey := "True"])
    ensures !ShouldHandle(map[OptInKey := "TRUE"])
    ensures !ShouldHandle(map[OptInKey := "1"])
    ensures !ShouldHandle(map[OptInKey := ""])
    ensures !ShouldHandle(map[])
  {
  }

  /** Reconcile is level-triggered: it depends on the namespace as fetched and
      on nothing about the notification that caused it, so two fetches of the
      same namespace decide the same, and a namespace whose opt-in annotation
      is unchanged is decided the same whatever else changed on it. */
  lemma ReconcileDependsOnlyOnNameAndPolicy(n1: Namespace, n2: Namespace)
    requires n1.name == n2.name
    requires ShouldHandle(n1.annotations) == ShouldHandle(n2.annotations)
    ensures Reconcile(Found(n1)) == Reconcile(Found(n2))
  {
  }
}
