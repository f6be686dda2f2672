/**
 * `ResourceTracker`: the append-only list of resources a test run produced,
 * lookup by `provide_as` name, the live view of that list and cleanup.
 */
module Tracker {
  import opened Wrappers
  import opened ServiceCatalog
  import opened Handlers

  /** One entry of `@resources`. */
  datatype Record = Record(rtype: Symbol, id: Id, provideAs: Option<Symbol>, name: string, testDescription: string)

  /** The ways a tracker call ends abnormally. */
  datatype Error =
    | InvalidResourceType(message: string)   // `ArgumentError` raised by `produce`
    | NoResource(rtype: Symbol, id: Id)      // `name` called on the `nil` that `get_ready` returned
    | ReadinessTimeout(rtype: Symbol, id: Id) // `wait_for` gave up on the resource
    | DestroyFailed(rtype: Symbol, id: Id)   // an exception escaped the destroy of this resource

  datatype Result<T> = Ok(value: T) | Err(error: Error)

  /** What `consumes` does: return an id, or mark the running test skipped with a message. */
  datatype Consumed = Provided(id: Id) | Skipped(message: string)

  function Join(xs: seq<string>, sep: string): string
  {
    if |xs| == 0 then "" else if |xs| == 1 then xs[0] else xs[0] + sep + Join(xs[1..], sep)
  }

  /** A string interpolated between a fixed prefix and suffix can be read back. */
  lemma InterpolationInjective(prefix: string, a: string, b: string, suffix: string)
    requires prefix + a + suffix == prefix + b + suffix
    ensures a == b
  {
    var m := prefix + a + suffix;
    assert |a| == |b|;
    assert a == m[|prefix|..|prefix| + |a|];
    assert b == (prefix + b + suffix)[|prefix|..|prefix| + |b|];
  }

  /** The `ArgumentError` message of `produce`, listing the known types. */
  function InvalidTypeMessage(t: Symbol): string
  {
    TypeMessage(t, ResourceTypes())
  }

  function TypeMessage(t: Symbol, known: seq<Symbol>): string
  {
    "Invalid resource type '" + t + "', use " + Join(known, ", ")
  }

  lemma TypeMessageInjective(a: Symbol, b: Symbol, known: seq<Symbol>)
    requires TypeMessage(a, known) == TypeMessage(b, known)
    ensures a == b
  {
    var suffix := "', use " + Join(known, ", ");
    assert TypeMessage(a, known) == "Invalid resource type '" + a + suffix;
    assert TypeMessage(b, known) == "Invalid resource type '" + b + suffix;
    InterpolationInjective("Invalid resource type '", a, b, suffix);
  }

  /** The message names the rejected type: different types give different messages. */
  lemma InvalidTypeMessageInjective(a: Symbol, b: Symbol)
    requires InvalidTypeMessage(a) == InvalidTypeMessage(b)
    ensures a == b
  {
    TypeMessageInjective(a, b, ResourceTypes());
  }

  /** The default message of `consumes`; a `nil` name interpolates as the empty string. */
  function MissingMessage(name: Option<Symbol>): string
  {
    "Required resource '" + (if name.Some? then name.value else "") + "' does not exist."
  }

  /**
   * The default message names what was missing: two names give the same
   * message only when they are equal, or when one is `nil` and the other empty.
   */
  lemma MissingMessageNamesResource(a: Option<Symbol>, b: Option<Symbol>)
    requires MissingMessage(a) == MissingMessage(b)
    ensures a.Some? && b.Some? ==> a == b
    ensures a != b ==> {a, b} == {None, Some("")}
  {
    InterpolationInjective("Required resource '", if a.Some? then a.value else "", if b.Some? then b.value else "", "' does not exist.");
  }

  predicate Known(r: Record)
  {
    ServiceOf(r.rtype).Some?
  }

  /** Every record has a type the catalog knows; `produce` records no other. */
  predicate KnownTypes(records: seq<Record>)
  {
    forall i :: 0 <= i < |records| ==> Known(records[i])
  }

  /** The record's `get_ready` returns a resource. */
  predicate IsLive(r: Record, cloud: Cloud)
  {
    Known(r) && GetReady(r.rtype, r.id, cloud).Found?
  }

  /** The record's `get_ready` raises because `wait_for` gives up. */
  predicate TimesOut(r: Record, cloud: Cloud)
  {
    Known(r) && GetReady(r.rtype, r.id, cloud) == WaitTimedOut
  }

  /** xs keeps some of the elements of ys, in their order. */
  predicate Subsequence<T(==)>(xs: seq<T>, ys: seq<T>)
    decreases |ys|
  {
    if ys == [] then xs == []
    else (xs != [] && xs[0] == ys[0] && Subsequence(xs[1..], ys[1..])) || Subsequence(xs, ys[1..])
  }

  /**
   * What `get_ready` answers for each record against one provider snapshot.
   * Records of an unknown type never reach it; they are given `NotFound`.
   */
  function FetchIn(cloud: Cloud): Record -> Fetched
  {
    (r: Record) => if Known(r) then GetReady(r.rtype, r.id, cloud) else NotFound
  }

  lemma FetchInAgrees(records: seq<Record>, cloud: Cloud)
    requires KnownTypes(records)
    ensures forall i :: 0 <= i < |records| ==> FetchIn(cloud)(records[i]) == GetReady(records[i].rtype, records[i].id, cloud)
  {
  }

  /** One step of the live view: the head record's fetch combined with the view of the rest. */
  function Prepend(head: Record, fetched: Fetched, rest: Result<seq<Record>>): Result<seq<Record>>
  {
    match fetched
    case WaitTimedOut => Err(ReadinessTimeout(head.rtype, head.id))
    case NotFound => rest
    case Found(_) =>
      match rest
      case Ok(live) => Ok([head] + live)
      case Err(e) => Err(e)
  }

  /**
   * `@resources.reject` of every record whose fetch is `nil`, front to back;
   * a fetch that raises aborts the whole call. The fetch is a parameter, so
   * the properties below hold whatever each handler's `get_ready` does.
   */
  function LiveWith(records: seq<Record>, fetch: Record -> Fetched): (r: Result<seq<Record>>)
    ensures r.Ok? ==> |r.value| <= |records|
    decreases |records|
  {
    if records == [] then Ok([])
    else Prepend(records[0], fetch(records[0]), LiveWith(records[1..], fetch))
  }

  /** `resources`: the live view under the handlers' `get_ready` against the provider. */
  function LiveResources(records: seq<Record>, cloud: Cloud): (r: Result<seq<Record>>)
    requires KnownTypes(records)
    ensures r.Ok? ==> |r.value| <= |records|
  {
    LiveWith(records, FetchIn(cloud))
  }

  lemma {:induction false} WithIsSubsequence(records: seq<Record>, fetch: Record -> Fetched)
    requires LiveWith(records, fetch).Ok?
    ensures Subsequence(LiveWith(records, fetch).value, records)
    decreases |records|
  {
    if records != [] {
      WithIsSubsequence(records[1..], fetch);
    }
  }

  lemma {:induction false} WithOnlyLive(records: seq<Record>, fetch: Record -> Fetched)
    requires LiveWith(records, fetch).Ok?
    ensures forall x :: x in LiveWith(records, fetch).value ==> x in records && fetch(x).Found?
    decreases |records|
  {
    if records != [] {
      WithOnlyLive(records[1..], fetch);
    }
  }

  lemma {:induction false} WithKeepsEveryLive(records: seq<Record>, fetch: Record -> Fetched)
    requires LiveWith(records, fetch).Ok?
    ensures forall i :: 0 <= i < |records| && fetch(records[i]).Found? ==> records[i] in LiveWith(records, fetch).value
    decreases |records|
  {
    if records != [] {
      var tail := records[1..];
      WithKeepsEveryLive(tail, fetch);
      forall i | 1 <= i < |records| && fetch(records[i]).Found?
        ensures records[i] in LiveWith(records, fetch).value
      {
        assert records[i] == tail[i - 1];
      }
    }
  }

  lemma {:induction false} WithFailsIffTimeout(records: seq<Record>, fetch: Record -> Fetched)
    ensures LiveWith(records, fetch).Ok? <==> forall i :: 0 <= i < |records| ==> fetch(records[i]) != WaitTimedOut
    decreases |records|
  {
    if records != [] {
      var tail := records[1..];
      WithFailsIffTimeout(tail, fetch);
      assert forall i :: 1 <= i < |records| ==> records[i] == tail[i - 1];
    }
  }

  /** Record i is the first whose fetch gives up. */
  predicate FirstTimeoutWith(records: seq<Record>, fetch: Record -> Fetched, i: int)
  {
    0 <= i < |records| && fetch(records[i]) == WaitTimedOut &&
    forall j :: 0 <= j < i ==> fetch(records[j]) != WaitTimedOut
  }

  lemma {:induction false} WithFailsAtFirstTimeout(records: seq<Record>, fetch: Record -> Fetched)
    requires LiveWith(records, fetch).Err?
    ensures exists i :: FirstTimeoutWith(records, fetch, i) &&
                        LiveWith(records, fetch).error == ReadinessTimeout(records[i].rtype, records[i].id)
    decreases |records|
  {
    var tail := records[1..];
    if fetch(records[0]) == WaitTimedOut {
      assert FirstTimeoutWith(records, fetch, 0);
    } else {
      WithFailsAtFirstTimeout(tail, fetch);
      var k :| FirstTimeoutWith(tail, fetch, k) &&
               LiveWith(tail, fetch).error == ReadinessTimeout(tail[k].rtype, tail[k].id);
      assert forall j :: 1 <= j <= k + 1 ==> records[j] == tail[j - 1];
      assert FirstTimeoutWith(records, fetch, k + 1);
    }
  }

  lemma {:induction false} WithIdempotent(records: seq<Record>, fetch: Record -> Fetched)
    requires LiveWith(records, fetch).Ok?
    ensures LiveWith(LiveWith(records, fetch).value, fetch) == LiveWith(records, fetch)
    decreases |records|
  {
    if records != [] {
      var tail := records[1..];
      WithIdempotent(tail, fetch);
      var live := LiveWith(records, fetch).value;
      if fetch(records[0]).Found? {
        assert live[1..] == LiveWith(tail, fetch).value;
      }
    }
  }

  /** The live view of a list from that of its prefix and the fetch of its last record. */
  function ExtendLive(prior: Result<seq<Record>>, x: Record, fetched: Fetched): Result<seq<Record>>
  {
    match prior
    case Err(e) => Err(e)
    case Ok(live) =>
      match fetched
      case Found(_) => Ok(live + [x])
      case NotFound => Ok(live)
      case WaitTimedOut => Err(ReadinessTimeout(x.rtype, x.id))
  }

  lemma PrependExtend(head: Record, h: Fetched, rest: Result<seq<Record>>, x: Record, fx: Fetched)
    ensures ExtendLive(Prepend(head, h, rest), x, fx) == Prepend(head, h, ExtendLive(rest, x, fx))
  {
    if h.Found? && rest.Ok? && fx.Found? {
      assert [head] + (rest.value + [x]) == ([head] + rest.value) + [x];
    }
  }

  lemma {:induction false} WithAppend(records: seq<Record>, x: Record, fetch: Record -> Fetched)
    ensures LiveWith(records + [x], fetch) == ExtendLive(LiveWith(records, fetch), x, fetch(x))
    decreases |records|
  {
    var all := records + [x];
    if records == [] {
      assert all[1..] == [];
      assert [x] + [] == [] + [x];
    } else {
      var tail := records[1..];
      var h := fetch(records[0]);
      assert all[1..] == tail + [x] && all[0] == records[0];
      calc {
        LiveWith(all, fetch);
      ==
        Prepend(records[0], h, LiveWith(tail + [x], fetch));
      == { WithAppend(tail, x, fetch); }
        Prepend(records[0], h, ExtendLive(LiveWith(tail, fetch), x, fetch(x)));
      == { PrependExtend(records[0], h, LiveWith(tail, fetch), x, fetch(x)); }
        ExtendLive(Prepend(records[0], h, LiveWith(tail, fetch)), x, fetch(x));
      }
    }
  }

  /** The live view keeps records in their production order. */
  lemma LiveIsSubsequence(records: seq<Record>, cloud: Cloud)
    requires KnownTypes(records)
    requires LiveResources(records, cloud).Ok?
    ensures Subsequence(LiveResources(records, cloud).value, records)
  {
    WithIsSubsequence(records, FetchIn(cloud));
  }

  /** The live view holds only records whose `get_ready` returns a resource. */
  lemma LiveOnlyLive(records: seq<Record>, cloud: Cloud)
    requires KnownTypes(records)
    requires LiveResources(records, cloud).Ok?
    ensures forall x :: x in LiveResources(records, cloud).value ==> x in records && IsLive(x, cloud)
  {
    WithOnlyLive(records, FetchIn(cloud));
  }

  /** The live view omits no record whose `get_ready` returns a resource. */
  lemma LiveKeepsEveryLive(records: seq<Record>, cloud: Cloud)
    requires KnownTypes(records)
    requires LiveResources(records, cloud).Ok?
    ensures forall i :: 0 <= i < |records| && IsLive(records[i], cloud) ==> records[i] in LiveResources(records, cloud).value
  {
    WithKeepsEveryLive(records, FetchIn(cloud));
    FetchInAgrees(records, cloud);
  }

  /** The live view fails exactly when some record's `get_ready` times out. */
  lemma LiveFailsIffTimeout(records: seq<Record>, cloud: Cloud)
    requires KnownTypes(records)
    ensures LiveResources(records, cloud).Ok? <==> forall i :: 0 <= i < |records| ==> !TimesOut(records[i], cloud)
  {
    WithFailsIffTimeout(records, FetchIn(cloud));
    FetchInAgrees(records, cloud);
  }

  /** Record i is the first whose `get_ready` times out. */
  predicate FirstTimeout(records: seq<Record>, cloud: Cloud, i: int)
  {
    0 <= i < |records| && TimesOut(records[i], cloud) &&
    forall j :: 0 <= j < i ==> !TimesOut(records[j], cloud)
  }

  /** When the live view fails, it names the first record that timed out. */
  lemma LiveFailsAtFirstTimeout(records: seq<Record>, cloud: Cloud)
    requires KnownTypes(records)
    requires LiveResources(records, cloud).Err?
    ensures exists i :: FirstTimeout(records, cloud, i) &&
                        LiveResources(records, cloud).error == ReadinessTimeout(records[i].rtype, records[i].id)
  {
    WithFailsAtFirstTimeout(records, FetchIn(cloud));
    var i :| FirstTimeoutWith(records, FetchIn(cloud), i) &&
             LiveResources(records, cloud).error == ReadinessTimeout(records[i].rtype, records[i].id);
    FetchInAgrees(records, cloud);
    assert FirstTimeout(records, cloud, i);
  }

  /** Computing the live view of the live view changes nothing. */
  lemma LiveIdempotent(records: seq<Record>, cloud: Cloud)
    requires KnownTypes(records)
    requires LiveResources(records, cloud).Ok?
    ensures KnownTypes(LiveResources(records, cloud).value)
    ensures LiveResources(LiveResources(records, cloud).value, cloud) == LiveResources(records, cloud)
  {
    LiveOnlyLive(records, cloud);
    var live := LiveResources(records, cloud).value;
    assert KnownTypes(live) by {
      forall i | 0 <= i < |live| ensures Known(live[i]) { assert live[i] in live; }
    }
    WithIdempotent(records, FetchIn(cloud));
  }

  lemma AppendKnown(records: seq<Record>, x: Record)
    requires KnownTypes(records) && Known(x)
    ensures KnownTypes(records + [x])
  {
    var all := records + [x];
    forall i | 0 <= i < |all| ensures Known(all[i]) {
      if i < |records| { assert all[i] == records[i]; }
    }
  }

  /** Appending one record extends the live view by that record exactly when it is live itself. */
  lemma LiveAppend(records: seq<Record>, x: Record, cloud: Cloud)
    requires KnownTypes(records) && Known(x)
    ensures KnownTypes(records + [x])
    ensures LiveResources(records + [x], cloud) ==
              ExtendLive(LiveResources(records, cloud), x, GetReady(x.rtype, x.id, cloud))
  {
    AppendKnown(records, x);
    WithAppend(records, x, FetchIn(cloud));
  }

  /** Record i is the first one provided under name. */
  predicate FirstNamed(records: seq<Record>, name: Option<Symbol>, i: int)
  {
    0 <= i < |records| && records[i].provideAs == name &&
    forall j :: 0 <= j < i ==> records[j].provideAs != name
  }

  /** `Array#find` on `provide_as == name`: the index of the first match. */
  function FindNamed(records: seq<Record>, name: Option<Symbol>): (r: Option<nat>)
    ensures r.Some? ==> FirstNamed(records, name, r.value)
    ensures r.None? ==> forall i :: 0 <= i < |records| ==> records[i].provideAs != name
    decreases |records|
  {
    if records == [] then None
    else if records[0].provideAs == name then Some(0)
    else
      match FindNamed(records[1..], name)
      case None => None
      case Some(k) => Some(k + 1)
  }

  /**
   * `consumes(name, message)`: the id of the first record provided under
   * name; otherwise the test is skipped with the given or the default message.
   */
  function ConsumeFrom(records: seq<Record>, name: Option<Symbol>, message: Option<string>): (r: Consumed)
    ensures r.Provided? <==> exists i :: 0 <= i < |records| && records[i].provideAs == name
    ensures r.Provided? ==> exists i :: FirstNamed(records, name, i) && r.id == records[i].id
    ensures r.Skipped? ==> r.message == if message.Some? then message.value else MissingMessage(name)
  {
    match FindNamed(records, name)
    case Some(i) => Provided(records[i].id)
    case None => Skipped(if message.Some? then message.value else MissingMessage(name))
  }

  /** Appending a record changes the first match only when there was none. */
  lemma {:induction false} FindNamedAppend(records: seq<Record>, x: Record, name: Option<Symbol>)
    ensures FindNamed(records + [x], name) ==
              if FindNamed(records, name).Some? then FindNamed(records, name)
              else if x.provideAs == name then Some(|records|)
              else None
    decreases |records|
  {
    if records != [] {
      assert (records + [x])[1..] == records[1..] + [x];
      FindNamedAppend(records[1..], x, name);
    }
  }

  /**
   * A record appended under a name is what `consumes` returns for that name
   * unless an earlier record already has it; earlier answers never change.
   */
  lemma ConsumeAfterAppend(records: seq<Record>, x: Record, name: Option<Symbol>, message: Option<string>)
    ensures ConsumeFrom(records + [x], name, message) ==
              if ConsumeFrom(records, name, message).Provided? then ConsumeFrom(records, name, message)
              else if x.provideAs == name then Provided(x.id)
              else ConsumeFrom(records, name, message)
  {
    FindNamedAppend(records, x, name);
    if FindNamed(records, name).Some? {
      assert (records + [x])[FindNamed(records, name).value] == records[FindNamed(records, name).value];
    }
  }

  /**
   * What the handler's `destroy` does to each record against one provider
   * snapshot. Records of an unknown type never reach it; they are given `Raised`.
   */
  function DestroyIn(cloud: Cloud): Record -> DestroyOutcome
  {
    (r: Record) => if Known(r) then Destroy(r.rtype, r.id, cloud) else Raised
  }

  /** The destroy of record k raises and every earlier one returns. */
  predicate FirstRaised(live: seq<Record>, destroy: Record -> DestroyOutcome, k: int)
  {
    0 <= k < |live| && destroy(live[k]) == Raised &&
    forall j :: 0 <= j < k ==> destroy(live[j]).Returned?
  }

  class ResourceTracker {
    var resources: seq<Record>

    ghost predicate Valid()
      reads this
    {
      KnownTypes(resources)
    }

    constructor ()
      ensures Valid() && resources == []
    {
      resources := [];
    }

    /** `resources`: the tracked records whose `get_ready` still returns a resource. */
    function Resources(cloud: Cloud): (r: Result<seq<Record>>)
      reads this
      requires Valid()
      ensures r.Ok? <==> forall i :: 0 <= i < |resources| ==> !TimesOut(resources[i], cloud)
      ensures r.Ok? ==> Subsequence(r.value, resources)
      ensures r.Ok? ==> forall i :: 0 <= i < |resources| ==> (resources[i] in r.value <==> IsLive(resources[i], cloud))
    {
      LiveFailsIffTimeout(resources, cloud);
      var live := LiveResources(resources, cloud);
      if live.Ok? then
        LiveIsSubsequence(resources, cloud);
        LiveOnlyLive(resources, cloud);
        LiveKeepsEveryLive(resources, cloud);
        live
      else
        live
    }

    /** `count`: the length of the live view. */
    function Count(cloud: Cloud): (r: Result<nat>)
      reads this
      requires Valid()
      ensures r.Ok? <==> Resources(cloud).Ok?
      ensures r.Ok? ==> r.value == |Resources(cloud).value| <= |resources|
      ensures r.Err? ==> r.error == Resources(cloud).error
    {
      match Resources(cloud)
      case Ok(live) => Ok(|live|)
      case Err(e) => Err(e)
    }

    /** `consumes(name, message)`: the id of the first record provided as name, or a skip. */
    function Consumes(name: Option<Symbol>, message: Option<string>): (r: Consumed)
      reads this
      ensures r.Provided? <==> exists i :: 0 <= i < |resources| && resources[i].provideAs == name
      ensures r.Provided? ==> exists i :: FirstNamed(resources, name, i) && r.id == resources[i].id
      ensures r.Skipped? ==> r.message == if message.Some? then message.value else MissingMessage(name)
    {
      ConsumeFrom(resources, name, message)
    }

    /**
     * `produce(type, provide_as:)`. `block` is the id the block yields, or
     * None when no block is given; `description` is the running example's
     * full description.
     */
    method Produce(t: Symbol, provideAs: Option<Symbol>, block: Option<Id>, cloud: Cloud, description: string)
      returns (r: Result<Option<Id>>)
      requires Valid()
      modifies this
      ensures Valid()
      ensures old(resources) <= resources && |resources| <= |old(resources)| + 1
      ensures ServiceOf(t).None? ==>
                r == Err(InvalidResourceType(InvalidTypeMessage(t))) && resources == old(resources)
      ensures ServiceOf(t).Some? && block.None? ==> r == Ok(None) && resources == old(resources)
      ensures ServiceOf(t).Some? && block.Some? && GetReady(t, block.value, cloud).Found? ==>
                r == Ok(block) &&
                resources == old(resources) + [Record(t, block.value, provideAs, GetReady(t, block.value, cloud).name, description)]
      ensures ServiceOf(t).Some? && block.Some? && GetReady(t, block.value, cloud) == NotFound ==>
                r == Err(NoResource(t, block.value)) && resources == old(resources)
      ensures ServiceOf(t).Some? && block.Some? && GetReady(t, block.value, cloud) == WaitTimedOut ==>
                r == Err(ReadinessTimeout(t, block.value)) && resources == old(resources)
    {
      var service := LookupService(t);
      if service.None? {
        return Err(InvalidResourceType(InvalidTypeMessage(t)));
      }
      if block.None? {
        return Ok(None);
      }
      var id := block.value;
      var fetched := GetReady(t, id, cloud);
      match fetched
      case NotFound =>
        r := Err(NoResource(t, id));
      case WaitTimedOut =>
        r := Err(ReadinessTimeout(t, id));
      case Found(name) =>
        var entry := Record(t, id, provideAs, name, description);
        resources := resources + [entry];
        r := Ok(Some(id));
    }

    /**
     * `cleanup`: destroy every live record in order, then `all?` of the
     * results. `attempted` lists the records whose destroy was called.
     */
    method Cleanup(cloud: Cloud) returns (r: Result<bool>, attempted: seq<Record>)
      requires Valid()
      ensures Resources(cloud).Err? ==> r == Err(Resources(cloud).error) && attempted == []
      ensures Resources(cloud).Ok? ==>
                KnownTypes(Resources(cloud).value) && DestroyedInOrder(Resources(cloud).value, DestroyIn(cloud), r, attempted)
      ensures resources == [] ==> r == Ok(true) && attempted == []
    {
      var listed := LiveResources(resources, cloud);
      if listed.Err? {
        return Err(listed.error), [];
      }
      var live := listed.value;
      LiveOnlyLive(resources, cloud);
      assert KnownTypes(live) by {
        forall i | 0 <= i < |live| ensures Known(live[i]) { assert live[i] in live; }
      }
      r, attempted := DestroyAll(live, DestroyIn(cloud));
    }
  }

  /**
   * What destroying the live records one after another yields: the calls
   * made form a prefix of live, they stop at the first destroy that raises,
   * and otherwise the answer is whether every destroy returned a truthy value.
   */
  predicate DestroyedInOrder(live: seq<Record>, destroy: Record -> DestroyOutcome, r: Result<bool>, attempted: seq<Record>)
  {
    && attempted <= live
    && (r.Ok? <==> forall i :: 0 <= i < |live| ==> destroy(live[i]).Returned?)
    && (r.Ok? ==> attempted == live &&
                  (r.value <==> forall i :: 0 <= i < |live| ==> destroy(live[i]).truthy))
    && (r.Err? ==> |attempted| > 0 && FirstRaised(live, destroy, |attempted| - 1) &&
                   r.error == DestroyFailed(live[|attempted| - 1].rtype, live[|attempted| - 1].id))
  }

  /** A destroy that raises, before which every destroy returned, is where cleanup stops. */
  lemma CleanupStopsAtFirstRaise(live: seq<Record>, destroy: Record -> DestroyOutcome, k: int, r: Result<bool>, attempted: seq<Record>)
    requires FirstRaised(live, destroy, k)
    requires DestroyedInOrder(live, destroy, r, attempted)
    ensures r == Err(DestroyFailed(live[k].rtype, live[k].id)) && attempted == live[..k + 1]
  {
    assert !destroy(live[k]).Returned?;
    assert r.Err?;
    FirstRaisedUnique(live, destroy, k, |attempted| - 1);
  }

  /** At most one destroy raises with every earlier destroy returning. */
  lemma FirstRaisedUnique(live: seq<Record>, destroy: Record -> DestroyOutcome, a: int, b: int)
    requires FirstRaised(live, destroy, a) && FirstRaised(live, destroy, b)
    ensures a == b
  {
  }

  /** `all?` on the collected results: whether every one is truthy. */
  method AllTruthy(results: seq<bool>) returns (all: bool)
    ensures all <==> forall j :: 0 <= j < |results| ==> results[j]
  {
    all := true;
    var k := 0;
    while k < |results|
      invariant 0 <= k <= |results|
      invariant all <==> forall j :: 0 <= j < k ==> results[j]
    {
      all := all && results[k];
      k := k + 1;
    }
  }

  /** `resources.map { destroy }.all?`: a raising destroy ends the `map` early. */
  method DestroyAll(live: seq<Record>, destroy: Record -> DestroyOutcome) returns (r: Result<bool>, attempted: seq<Record>)
    ensures DestroyedInOrder(live, destroy, r, attempted)
    ensures live == [] ==> r == Ok(true) && attempted == []
  {
    var results: seq<bool> := [];
    var i := 0;
    while i < |live|
      invariant 0 <= i <= |live| && |results| == i
      invariant forall j :: 0 <= j < i ==> destroy(live[j]) == Returned(results[j])
    {
      var outcome := destroy(live[i]);
      if outcome.Raised? {
        assert FirstRaised(live, destroy, i);
        r, attempted := Err(DestroyFailed(live[i].rtype, live[i].id)), live[..i + 1];
        return;
      }
      results := results + [outcome.truthy];
      i := i + 1;
    }
    var all := AllTruthy(results);
    r, attempted := Ok(all), live;
  }

  /** A record produced live in a cloud enters the live view of that cloud, at its end. */
  lemma ProducedRecordIsLive(records: seq<Record>, x: Record, cloud: Cloud)
    requires KnownTypes(records) && Known(x)
    requires GetReady(x.rtype, x.id, cloud).Found?
    requires LiveResources(records, cloud).Ok?
    ensures KnownTypes(records + [x])
    ensures LiveResources(records + [x], cloud) == Ok(LiveResources(records, cloud).value + [x])
  {
    LiveAppend(records, x, cloud);
  }
}
