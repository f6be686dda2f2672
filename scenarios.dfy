/**
 * Client methods: each drives a tracker through one everyday situation of a
 * test run, and the assertions follow from the contracts alone.
 */
module Scenarios {
  import opened Wrappers
  import opened ServiceCatalog
  import opened Handlers
  import opened Tracker

  /** A provider that reports only the VM "vm-1", ready, and deletes everything. */
  function OneServerCloud(): Cloud
  {
    Cloud((t: Symbol, id: Id) => if id == "vm-1" then Present(ResourceState("vm", "ACTIVE", true)) else Absent,
          (t: Symbol, id: Id) => Completed(true))
  }

  /** A server whose VM is ready at once is returned, counted and consumable. */
  method ProduceReadyServer()
  {
    var cloud := OneServerCloud();
    var tracker := new ResourceTracker();
    ServiceOfListed(Compute, ["flavors", "key_pairs", "servers"], "servers");
    var r := tracker.Produce("servers", Some("vm"), Some("vm-1"), cloud, "creates a VM");
    assert r == Ok(Some("vm-1"));
    var entry := Record("servers", "vm-1", Some("vm"), "vm", "creates a VM");
    assert tracker.resources == [] + [entry];
    ProducedRecordIsLive([], entry, cloud);
    assert tracker.Count(cloud) == Ok(1);
    assert tracker.Consumes(Some("vm"), None) == Provided("vm-1");
  }

  /** An unknown type is rejected and nothing is recorded. */
  method ProduceUnknownType()
  {
    var cloud := OneServerCloud();
    var tracker := new ResourceTracker();
    ServiceOfIffListed("buckets");
    ResourceTypesListed();
    var r := tracker.Produce("buckets", None, Some("vm-1"), cloud, "creates a bucket");
    assert r.Err? && r.error.InvalidResourceType?;
    assert tracker.resources == [];
  }

  /** Consuming a name nobody produced skips the test with the default message. */
  method ConsumeMissing()
  {
    var tracker := new ResourceTracker();
    assert tracker.Consumes(Some("db"), None) == Skipped("Required resource 'db' does not exist.");
  }

  /** A provider that knows no resource at all. */
  function EmptyCloud(): Cloud
  {
    Cloud((t: Symbol, id: Id) => Absent, (t: Symbol, id: Id) => Completed(true))
  }

  lemma StemOneIsLight()
    ensures MatchesLight("stem-1 light")
  {
    EndsInLight("stem-1");
    assert "stem-1" + LightSuffix == "stem-1 light";
  }

  /** The light stemcell "stem-1 light" is live and deleted without the provider knowing it. */
  lemma LightStemcellLifecycle(entry: Record)
    requires entry == Record("images", "stem-1 light", None, LightStubNameAsWritten("stem-1 light"), "uploads a stemcell")
    ensures Known(entry) && GetReady("images", "stem-1 light", EmptyCloud()) == Found(entry.name)
    ensures LiveResources([entry], EmptyCloud()) == Ok([entry])
    ensures DestroyIn(EmptyCloud())(entry) == Returned(true)
  {
    ServiceOfListed(Image, ["images"], "images");
    StemOneIsLight();
    LightStemcellSkipsProvider("stem-1 light", EmptyCloud(), EmptyCloud());
    ProducedRecordIsLive([], entry, EmptyCloud());
    assert [] + [entry] == [entry];
    CpiDestroyOutcome("images", "stem-1 light", EmptyCloud());
  }

  /** A light stemcell is tracked although the provider knows nothing about it, and cleaned up. */
  method ProduceLightStemcell()
  {
    var cloud := EmptyCloud();
    var tracker := new ResourceTracker();
    var entry := Record("images", "stem-1 light", None, LightStubNameAsWritten("stem-1 light"), "uploads a stemcell");
    LightStemcellLifecycle(entry);
    var r := tracker.Produce("images", None, Some("stem-1 light"), cloud, "uploads a stemcell");
    assert r == Ok(Some("stem-1 light"));
    assert tracker.resources == [entry];
    var ok, attempted := tracker.Cleanup(cloud);
    assert ok == Ok(true) && attempted == [entry];
  }

  /** Two records whose fetches both find their resource form the live view, in order. */
  lemma BothLive(first: Record, second: Record, cloud: Cloud)
    requires Known(first) && GetReady(first.rtype, first.id, cloud).Found?
    requires Known(second) && GetReady(second.rtype, second.id, cloud).Found?
    ensures KnownTypes([first] + [second])
    ensures LiveResources([first] + [second], cloud) == Ok([first, second])
  {
    ProducedRecordIsLive([], first, cloud);
    assert [] + [first] == [first];
    ProducedRecordIsLive([first], second, cloud);
    assert [first] + [second] == [first, second];
  }

  /** A new tracker into which two resources of type t, each found under its own id as its name, are produced. */
  method TrackTwo(t: Symbol, a: Id, b: Id, cloud: Cloud) returns (tracker: ResourceTracker)
    requires ServiceOf(t).Some?
    requires GetReady(t, a, cloud) == Found(a) && GetReady(t, b, cloud) == Found(b)
    ensures fresh(tracker) && tracker.Valid()
    ensures tracker.resources == [Record(t, a, None, a, "first"), Record(t, b, None, b, "second")]
    ensures tracker.Resources(cloud) == Ok(tracker.resources)
  {
    tracker := new ResourceTracker();
    var r1 := tracker.Produce(t, None, Some(a), cloud, "first");
    var r2 := tracker.Produce(t, None, Some(b), cloud, "second");
    var first, second := Record(t, a, None, a, "first"), Record(t, b, None, b, "second");
    assert tracker.resources == [first] + [second];
    BothLive(first, second, cloud);
  }

  /** Two servers: the first `delete_vm` raises `CloudError`; both are attempted and cleanup is false. */
  method CleanupServersAfterCloudError()
  {
    var cloud := Cloud((t: Symbol, id: Id) => Present(ResourceState(id, "ACTIVE", true)),
                       (t: Symbol, id: Id) => if id == "vm-1" then CloudError else Completed(true));
    ServiceOfListed(Compute, ["flavors", "key_pairs", "servers"], "servers");
    assert GetReady("servers", "vm-1", cloud) == Found("vm-1");
    assert GetReady("servers", "vm-2", cloud) == Found("vm-2");
    var tracker := TrackTwo("servers", "vm-1", "vm-2", cloud);
    CpiDestroyOutcome("servers", "vm-1", cloud);
    CpiDestroyOutcome("servers", "vm-2", cloud);
    var ok, attempted := tracker.Cleanup(cloud);
    assert ok == Ok(false) && attempted == tracker.resources;
  }

  /** A provider with two available volumes whose first delete raises something other than `CloudError`. */
  function TwoVolumesCloud(): Cloud
  {
    Cloud((t: Symbol, id: Id) => Present(ResourceState(id, "available", true)),
          (t: Symbol, id: Id) => if id == "vol-1" then OtherError else Completed(true))
  }

  /** Both volumes are ready; destroying the first raises. */
  lemma TwoVolumesFacts()
    ensures ServiceOf("volumes").Some?
    ensures GetReady("volumes", "vol-1", TwoVolumesCloud()) == Found("vol-1")
    ensures GetReady("volumes", "vol-2", TwoVolumesCloud()) == Found("vol-2")
    ensures Destroy("volumes", "vol-1", TwoVolumesCloud()) == Raised
  {
    ServiceOfListed(Volume, ["volumes", "snapshots"], "volumes");
    GenericDestroyOutcome("volumes", "vol-1", TwoVolumesCloud());
  }

  /** Two volumes: the first generic destroy raises, so cleanup aborts before the second. */
  method CleanupVolumesAfterRaise()
  {
    var cloud := TwoVolumesCloud();
    TwoVolumesFacts();
    var tracker := TrackTwo("volumes", "vol-1", "vol-2", cloud);
    assert FirstRaised(tracker.resources, DestroyIn(cloud), 0);
    var ok, attempted := tracker.Cleanup(cloud);
    CleanupStopsAtFirstRaise(tracker.resources, DestroyIn(cloud), 0, ok, attempted);
    assert ok == Err(DestroyFailed("volumes", "vol-1")) && attempted == tracker.resources[..1];
  }
}
