/**
 * The service catalog of the resource tracker: the fixed table that assigns
 * every resource type to the OpenStack service namespace that serves it
 * (`RESOURCE_SERVICES`, `service`, `resource_types`).
 */
module ServiceCatalog {
  import opened Wrappers

  /** A resource type, given as the name of its Ruby symbol (`:servers` is "servers"). */
  type Symbol = string

  datatype Service = Compute | Network | Image | Volume

  /** Service entries in declaration order, each with the types it serves. */
  type Table = seq<(Service, seq<Symbol>)>

  const ResourceServices: Table := [
    (Compute, ["flavors", "key_pairs", "servers"]),
    (Network, ["networks", "ports", "subnets", "floating_ips", "routers", "security_groups", "security_group_rules"]),
    (Image, ["images"]),
    (Volume, ["volumes", "snapshots"])
  ]

  /** Entry i is the first entry of the table that lists t. */
  predicate FirstListing(table: Table, t: Symbol, i: int)
  {
    0 <= i < |table| && t in table[i].1 && forall j :: 0 <= j < i ==> t !in table[j].1
  }

  /** No type is listed under two different entries. */
  predicate Disjoint(table: Table)
  {
    forall i, j, t :: 0 <= i < j < |table| && t in table[i].1 ==> t !in table[j].1
  }

  /**
   * The iteration of `service`: the service of the first entry whose list
   * contains t, or None when no entry lists it.
   */
  function ServiceIn(table: Table, t: Symbol): (r: Option<Service>)
    ensures r.None? <==> forall i :: 0 <= i < |table| ==> t !in table[i].1
    ensures r.Some? ==> exists i :: FirstListing(table, t, i) && table[i].0 == r.value
  {
    if table == [] then None
    else if t in table[0].1 then
      assert FirstListing(table, t, 0);
      Some(table[0].0)
    else
      var r := ServiceIn(table[1..], t);
      assert r.None? ==> forall i :: 1 <= i < |table| ==> t !in table[i].1 by {
        if r.None? {
          forall i | 1 <= i < |table| ensures t !in table[i].1 {
            assert table[i] == table[1..][i - 1];
          }
        }
      }
      assert r.Some? ==> exists i :: FirstListing(table, t, i) && table[i].0 == r.value by {
        if r.Some? {
          var k :| FirstListing(table[1..], t, k) && table[1..][k].0 == r.value;
          assert FirstListing(table, t, k + 1);
        }
      }
      r
  }

  /** Whatever entry lists t first determines the answer of ServiceIn. */
  lemma {:induction false} FirstListingDetermines(table: Table, t: Symbol, i: int)
    requires FirstListing(table, t, i)
    ensures ServiceIn(table, t) == Some(table[i].0)
  {
    if i > 0 {
      assert t !in table[0].1;
      assert FirstListing(table[1..], t, i - 1) by {
        forall j | 0 <= j < i - 1 ensures t !in table[1..][j].1 {
          assert table[1..][j] == table[j + 1];
        }
      }
      FirstListingDetermines(table[1..], t, i - 1);
    }
  }

  /** In a disjoint table the entry serving t is unique, so any entry listing t is the answer. */
  lemma {:induction false} ServiceUnique(table: Table, t: Symbol, i: int)
    requires Disjoint(table)
    requires 0 <= i < |table| && t in table[i].1
    ensures ServiceIn(table, t) == Some(table[i].0)
  {
    assert forall j :: 0 <= j < i ==> t !in table[j].1;
    assert FirstListing(table, t, i);
    FirstListingDetermines(table, t, i);
  }

  /** `RESOURCE_SERVICES.values.flatten`: every entry's types, in table order. */
  function Flatten(table: Table): (r: seq<Symbol>)
    ensures forall t :: t in r <==> exists i :: 0 <= i < |table| && t in table[i].1
    ensures |table| > 0 ==> r == table[0].1 + Flatten(table[1..])
  {
    if table == [] then []
    else
      var rest := Flatten(table[1..]);
      assert forall t :: t in rest <==> exists i :: 1 <= i < |table| && t in table[i].1 by {
        forall t ensures t in rest <==> exists i :: 1 <= i < |table| && t in table[i].1 {
          if t in rest {
            var k :| 0 <= k < |table[1..]| && t in table[1..][k].1;
            assert t in table[k + 1].1;
          }
        }
      }
      table[0].1 + rest
  }

  /** Every known resource type, used in the message that rejects an unknown one. */
  function ResourceTypes(): seq<Symbol>
  {
    Flatten(ResourceServices)
  }

  /** The known types, in the order the catalog declares them. */
  lemma ResourceTypesListed()
    ensures ResourceTypes() == ["flavors", "key_pairs", "servers",
                                "networks", "ports", "subnets", "floating_ips", "routers", "security_groups", "security_group_rules",
                                "images",
                                "volumes", "snapshots"]
  {
  }

  /** The service of resource type t; None for a type that is in no list. */
  function ServiceOf(t: Symbol): Option<Service>
  {
    ServiceIn(ResourceServices, t)
  }

  /**
   * A type has a service exactly when it is among the known types, and then
   * it is the service of the first entry listing it.
   */
  lemma ServiceOfIffListed(t: Symbol)
    ensures ServiceOf(t).Some? <==> t in ResourceTypes()
    ensures ServiceOf(t).Some? ==> exists i :: FirstListing(ResourceServices, t, i) && ResourceServices[i].0 == ServiceOf(t).value
  {
  }

  /** The catalog lists each type under one service only. */
  lemma CatalogDisjoint()
    ensures Disjoint(ResourceServices)
  {
  }

  /** So the service of a listed type is exactly the entry that lists it. */
  lemma ServiceOfListed(s: Service, types: seq<Symbol>, t: Symbol)
    requires (s, types) in ResourceServices && t in types
    ensures ServiceOf(t) == Some(s)
  {
    CatalogDisjoint();
    var i :| 0 <= i < |ResourceServices| && ResourceServices[i] == (s, types);
    ServiceUnique(ResourceServices, t, i);
  }

  /**
   * The `service` method: walks the entries in order and returns at the first
   * one whose type list includes t.
   */
  method LookupService(t: Symbol) returns (r: Option<Service>)
    ensures r == ServiceOf(t)
    ensures r.Some? ==> exists types :: (r.value, types) in ResourceServices && t in types
  {
    var i := 0;
    while i < |ResourceServices|
      invariant 0 <= i <= |ResourceServices|
      invariant forall j :: 0 <= j < i ==> t !in ResourceServices[j].1
    {
      var (service, types) := ResourceServices[i];
      if t in types {
        assert FirstListing(ResourceServices, t, i);
        FirstListingDetermines(ResourceServices, t, i);
        assert ResourceServices[i] == (service, types);
        return Some(service);
      }
      i := i + 1;
    }
    return None;
  }
}
