/**
 * Per-type behaviour of the resource tracker (`Base`, `Images`, `Servers` and
 * `RESOURCE_HANDLER`): how a resource is fetched and waited for, and how it is
 * destroyed. The OpenStack client and the CPI are an oracle, `Cloud`.
 */
module Handlers {
  import opened Wrappers
  import opened ServiceCatalog

  /** A provider-assigned resource id (a VM cid, a stemcell cid, ...). */
  type Id = string

  /** What the provider reports about a resource once `wait_for` looks at it. */
  datatype ResourceState = ResourceState(name: string, status: string, ready: bool)

  /** The provider's `get`: a resource, or nothing (`nil` or `Fog::Errors::NotFound`). */
  datatype Probe = Present(state: ResourceState) | Absent

  /** How the underlying delete call ends: it returns a value, raises `CloudError`, or raises anything else. */
  datatype CallResult = Completed(truthy: bool) | CloudError | OtherError

  /**
   * The provider as seen by one call of the tracker: `get` per (type, id),
   * and what deleting (type, id) does (Fog's `destroy`, or the CPI's
   * `delete_stemcell` / `delete_vm` for the types that override it).
   */
  datatype Cloud = Cloud(get: (Symbol, Id) -> Probe, delete: (Symbol, Id) -> CallResult)

  /** The `wait_for` predicates of `RESOURCE_HANDLER`. */
  datatype Readiness = AlwaysReady | ReadyFlag | StatusIs(status: string)

  datatype FetchPolicy = ProviderFetch | LightStemcellFetch

  datatype DestroyPolicy = ProviderDestroy | DeleteStemcell | DeleteVm

  datatype Handler = Handler(waitFor: Readiness, fetch: FetchPolicy, destroy: DestroyPolicy)

  /** `Base.new`: no wait, the provider's own fetch and destroy. */
  const BaseHandler := Handler(AlwaysReady, ProviderFetch, ProviderDestroy)

  const ResourceHandler: map<Symbol, Handler> := map[
    "images" := Handler(StatusIs("active"), LightStemcellFetch, DeleteStemcell),
    "servers" := Handler(ReadyFlag, ProviderFetch, DeleteVm),
    "volumes" := Handler(ReadyFlag, ProviderFetch, ProviderDestroy),
    "snapshots" := Handler(StatusIs("available"), ProviderFetch, ProviderDestroy),
    "networks" := Handler(StatusIs("ACTIVE"), ProviderFetch, ProviderDestroy),
    "ports" := Handler(StatusIs("ACTIVE"), ProviderFetch, ProviderDestroy),
    "routers" := Handler(StatusIs("ACTIVE"), ProviderFetch, ProviderDestroy)
  ]

  /** `RESOURCE_HANDLER.fetch(type, Base.new)`. */
  function HandlerFor(t: Symbol): Handler
  {
    if t in ResourceHandler then ResourceHandler[t] else BaseHandler
  }

  /**
   * Only images take the light-stemcell shortcut, only images and servers
   * override destroy, and a type without an entry gets `Base`: always ready.
   */
  lemma HandlerOverrides(t: Symbol)
    ensures HandlerFor(t).fetch == LightStemcellFetch <==> t == "images"
    ensures HandlerFor(t).destroy != ProviderDestroy <==> t == "images" || t == "servers"
    ensures t !in ResourceHandler ==> HandlerFor(t).waitFor == AlwaysReady && HandlerFor(t).fetch == ProviderFetch
  {
  }

  /** Whether a reported state satisfies a `wait_for` predicate. */
  predicate Satisfies(w: Readiness, s: ResourceState)
  {
    match w
    case AlwaysReady => true
    case ReadyFlag => s.ready
    case StatusIs(status) => s.status == status
  }

  /** The outcome of `get_ready`: a resource with its name, `nil`, or `wait_for` giving up. */
  datatype Fetched = Found(name: string) | NotFound | WaitTimedOut

  const LightSuffix: string := " light"

  /**
   * The regular expression `/ light$/` matches at position p: " light"
   * followed by the end of the id or by a line break (Ruby's `$`).
   */
  predicate LightAt(id: Id, p: int)
  {
    0 <= p && p + 6 <= |id| && id[p..p + 6] == LightSuffix && (p + 6 == |id| || id[p + 6] == '\n')
  }

  /** `id =~ / light$/`, searching left to right. */
  function MatchesLight(id: Id): bool
    decreases |id|
  {
    if |id| < 6 then false else LightAt(id, 0) || MatchesLight(id[1..])
  }

  lemma LightAtShift(id: Id, p: int)
    requires |id| > 0 && p >= 0
    ensures LightAt(id[1..], p) <==> LightAt(id, p + 1)
  {
    var tail := id[1..];
    if 0 <= p && p + 6 <= |tail| {
      assert tail[p..p + 6] == id[p + 1..p + 7];
      if p + 6 < |tail| {
        assert tail[p + 6] == id[p + 7];
      }
    }
  }

  /** MatchesLight finds a match exactly when the pattern matches somewhere. */
  lemma {:induction false} MatchesLightIff(id: Id)
    ensures MatchesLight(id) <==> exists p :: LightAt(id, p)
    decreases |id|
  {
    if |id| < 6 {
      assert forall p :: !LightAt(id, p);
    } else {
      MatchesLightIff(id[1..]);
      if exists p :: LightAt(id[1..], p) {
        var p :| LightAt(id[1..], p);
        LightAtShift(id, p);
      }
      if exists p :: LightAt(id, p) && p > 0 {
        var p :| LightAt(id, p) && p > 0;
        LightAtShift(id, p - 1);
      }
    }
  }

  /** Every id ending in " light" is a light stemcell id. */
  lemma EndsInLight(prefix: Id)
    ensures MatchesLight(prefix + LightSuffix)
  {
    var id := prefix + LightSuffix;
    assert id[|prefix|..|prefix| + 6] == LightSuffix;
    assert LightAt(id, |prefix|);
    MatchesLightIff(id);
  }

  /** On an id without a line break the pattern means exactly "ends in ' light'". */
  lemma LightWithoutLineBreak(id: Id)
    requires '\n' !in id
    ensures MatchesLight(id) <==> |id| >= 6 && id[|id| - 6..] == LightSuffix
  {
    if MatchesLight(id) {
      MatchesLightIff(id);
      var p :| LightAt(id, p);
      LightOnlyAtEnd(id, p);
    } else if |id| >= 6 && id[|id| - 6..] == LightSuffix {
      assert id == id[..|id| - 6] + LightSuffix;
      EndsInLight(id[..|id| - 6]);
    }
  }

  lemma LightOnlyAtEnd(id: Id, p: int)
    requires '\n' !in id && LightAt(id, p)
    ensures p == |id| - 6 && id[|id| - 6..] == LightSuffix
  {
    assert forall k :: 0 <= k < |id| ==> id[k] != '\n';
  }

  /** Ruby's `$` also matches before a line break, so such an id is "light" too. */
  lemma LightBeforeLineBreak()
    ensures MatchesLight("stem-1 light\nx")
  {
    assert LightAt("stem-1 light\nx", 6);
    MatchesLightIff("stem-1 light\nx");
  }

  /**
   * The stub name of a light stemcell as `Images#get_ready` writes it:
   * `"light_stemcell_#{@id}"` with the instance variable `@id`, which no
   * handler ever sets, so it interpolates as the empty string.
   */
  function LightStubNameAsWritten(id: Id): string
  {
    "light_stemcell_"
  }

  /** The name written as above does not depend on the id: two stemcells share it. */
  lemma LightStubNameAsWrittenCollides()
    ensures LightStubNameAsWritten("stem-1 light") == LightStubNameAsWritten("stem-2 light")
    ensures LightStubNameAsWritten("stem-1 light") != "light_stemcell_stem-1 light"
  {
  }

  /** The evidently intended stub name: interpolating the parameter `id`. */
  function LightStubName(id: Id): string
  {
    "light_stemcell_" + id
  }

  /** Distinct light stemcells get distinct stub names. */
  lemma LightStubNameInjective(a: Id, b: Id)
    requires LightStubName(a) == LightStubName(b)
    ensures a == b
  {
    assert a == LightStubName(a)[|"light_stemcell_"|..];
  }

  /** `Base#get_ready`: fetch from the provider, then wait for the handler's predicate. */
  function ProviderGetReady(w: Readiness, t: Symbol, id: Id, cloud: Cloud): (r: Fetched)
    ensures r == NotFound <==> cloud.get(t, id) == Absent
    ensures r.Found? <==> cloud.get(t, id).Present? && Satisfies(w, cloud.get(t, id).state)
    ensures r.Found? ==> r.name == cloud.get(t, id).state.name
  {
    match cloud.get(t, id)
    case Absent => NotFound
    case Present(s) => if Satisfies(w, s) then Found(s.name) else WaitTimedOut
  }

  /**
   * `get_ready` of the handler of t (dispatched to `Images#get_ready` for
   * images). Only ever called with a type the catalog knows.
   */
  function GetReady(t: Symbol, id: Id, cloud: Cloud): Fetched
    requires ServiceOf(t).Some?
  {
    var h := HandlerFor(t);
    if h.fetch == LightStemcellFetch && MatchesLight(id) then Found(LightStubNameAsWritten(id))
    else ProviderGetReady(h.waitFor, t, id, cloud)
  }

  /**
   * `get_ready` of images answers a light stemcell id with a stub; every
   * other case is the provider's fetch and wait with the handler's predicate.
   */
  lemma GetReadyDispatch(t: Symbol, id: Id, cloud: Cloud)
    requires ServiceOf(t).Some?
    ensures t == "images" && MatchesLight(id) ==> GetReady(t, id, cloud) == Found(LightStubNameAsWritten(id))
    ensures !(t == "images" && MatchesLight(id)) ==>
              GetReady(t, id, cloud) == ProviderGetReady(HandlerFor(t).waitFor, t, id, cloud)
  {
  }

  /** A light stemcell id is answered without asking the provider: any two clouds agree. */
  lemma LightStemcellSkipsProvider(id: Id, c1: Cloud, c2: Cloud)
    requires MatchesLight(id)
    ensures GetReady("images", id, c1) == GetReady("images", id, c2) == Found(LightStubNameAsWritten(id))
  {
    ServiceOfListed(Image, ["images"], "images");
  }

  /** A type without a `RESOURCE_HANDLER` entry never waits: a present resource is ready. */
  lemma UnlistedTypesAreReadyAtOnce(t: Symbol, id: Id, cloud: Cloud)
    requires ServiceOf(t).Some? && t !in ResourceHandler
    ensures GetReady(t, id, cloud).Found? <==> cloud.get(t, id).Present?
    ensures GetReady(t, id, cloud) != WaitTimedOut
  {
  }

  /** The outcome of one destroy: a value (truthy or not) or an exception escaping it. */
  datatype DestroyOutcome = Returned(truthy: bool) | Raised

  /**
   * `destroy` of the handler of t. `Base#destroy` calls `destroy` on what
   * `get_ready` returns, and raises when that is `nil`; `Images#destroy` and
   * `Servers#destroy` call the CPI and turn only `CloudError` into `false`.
   */
  function Destroy(t: Symbol, id: Id, cloud: Cloud): DestroyOutcome
    requires ServiceOf(t).Some?
  {
    match HandlerFor(t).destroy
    case ProviderDestroy =>
      if GetReady(t, id, cloud).Found? then
        match cloud.delete(t, id)
        case Completed(b) => Returned(b)
        case CloudError => Raised
        case OtherError => Raised
      else Raised
    case _ =>
      match cloud.delete(t, id)
      case Completed(_) => Returned(true)
      case CloudError => Returned(false)
      case OtherError => Raised
  }

  /**
   * The destroys of images and servers raise only on errors other than
   * `CloudError`, which they report as a falsy result.
   */
  lemma CpiDestroyOutcome(t: Symbol, id: Id, cloud: Cloud)
    requires ServiceOf(t).Some? && HandlerFor(t).destroy != ProviderDestroy
    ensures Destroy(t, id, cloud) == Returned(true) <==> cloud.delete(t, id).Completed?
    ensures Destroy(t, id, cloud) == Returned(false) <==> cloud.delete(t, id) == CloudError
    ensures Destroy(t, id, cloud) == Raised <==> cloud.delete(t, id) == OtherError
  {
  }

  /**
   * The generic destroy returns the provider's answer when `get_ready` finds
   * the resource and its destroy returns; in every other case it raises.
   */
  lemma GenericDestroyOutcome(t: Symbol, id: Id, cloud: Cloud)
    requires ServiceOf(t).Some? && HandlerFor(t).destroy == ProviderDestroy
    ensures Destroy(t, id, cloud).Returned? <==> GetReady(t, id, cloud).Found? && cloud.delete(t, id).Completed?
    ensures Destroy(t, id, cloud).Returned? ==> Destroy(t, id, cloud).truthy == cloud.delete(t, id).truthy
  {
  }

  /** Only images and servers override destroy, and so only they rescue `CloudError`. */
  lemma OnlyImagesAndServersRescue(t: Symbol, id: Id, cloud: Cloud)
    requires ServiceOf(t).Some?
    requires cloud.delete(t, id) == CloudError
    ensures Destroy(t, id, cloud) == Returned(false) <==> t == "images" || t == "servers"
    ensures Destroy(t, id, cloud) == Raised <==> t != "images" && t != "servers"
  {
  }

  /** The generic destroy of a resource the provider no longer has raises. */
  lemma GenericDestroyOfAbsentRaises(t: Symbol, id: Id, cloud: Cloud)
    requires ServiceOf(t).Some? && t != "images" && t != "servers"
    requires cloud.get(t, id) == Absent
    ensures Destroy(t, id, cloud) == Raised
  {
  }
}
