/** The OCCI instances the client builds and receives: entities (resources
    and links, with the infrastructure specialisations), action instances,
    and the collections a describe call accumulates. */
module Entities {
  import opened Wrappers
  import opened Errors
  import opened Categories

  /** The Java class of an entity. */
  datatype EntityClass =
    | ResourceEntity
    | LinkEntity
    | ComputeEntity
    | NetworkEntity
    | StorageEntity
    | StorageLinkEntity
    | NetworkInterfaceEntity
    | IpNetworkEntity
    | IpNetworkInterfaceEntity

  /** An entity: its class, its `id` attribute, its kind (which a hand-made
      entity may lack), its mixins in the order added, and the model it is
      bound to. */
  datatype Entity = Entity(entityClass: EntityClass, id: string, kind: Option<Kind>, mixins: seq<Mixin>,
                           model: Option<Model>)

  datatype ActionInstance = ActionInstance(action: Action, model: Option<Model>)

  predicate IsLink(e: Entity) {
    e.entityClass.LinkEntity? || e.entityClass.StorageLinkEntity? || e.entityClass.NetworkInterfaceEntity? ||
    e.entityClass.IpNetworkInterfaceEntity?
  }

  /** A parsed collection: resources and links kept apart, each in arrival
      order. */
  datatype Collection = Collection(resources: seq<Entity>, links: seq<Entity>)

  function EmptyCollection(): (r: Collection)
    ensures r.resources == [] && r.links == []
  {
    Collection([], [])
  }

  /** `Collection.merge`: the other collection's resources and links are added
      after this one's. */
  function Merge(c: Collection, other: Collection): (r: Collection)
    ensures |r.resources| == |c.resources| + |other.resources| && |r.links| == |c.links| + |other.links|
    ensures r.resources[..|c.resources|] == c.resources && r.resources[|c.resources|..] == other.resources
    ensures r.links[..|c.links|] == c.links && r.links[|c.links|..] == other.links
  {
    Collection(c.resources + other.resources, c.links + other.links)
  }

  /** `generateEntityListFromCollection`: every link, then every resource. */
  function EntityList(c: Collection): (r: seq<Entity>)
    ensures |r| == |c.links| + |c.resources|
    ensures forall i :: 0 <= i < |c.links| ==> r[i] == c.links[i]
    ensures forall i :: 0 <= i < |c.resources| ==> r[|c.links| + i] == c.resources[i]
  {
    c.links + c.resources
  }

  /** Merging collections and then listing them puts all links of both first:
      the list does not follow the order in which collections arrived. */
  lemma EntityListOfMerge(c: Collection, other: Collection)
    ensures EntityList(Merge(c, other)) == c.links + other.links + c.resources + other.resources
  {
  }

  /** A list of the collection's entities split in two: the links, in any
      order, and after them the resources. */
  predicate LinksFirst(es: seq<Entity>, c: Collection) {
    exists k :: 0 <= k <= |es| && multiset(es[..k]) == multiset(c.links) && multiset(es[k..]) == multiset(c.resources)
  }

  /** The entity list holds exactly the collection's entities, each link
      placed before each resource. */
  lemma EntityListLinksFirst(c: Collection)
    ensures LinksFirst(EntityList(c), c)
  {
    var es := EntityList(c);
    var k := |c.links|;
    assert es[..k] == c.links && es[k..] == c.resources;
  }

  /** Folding `Merge` over a list of collections, as describe does per
      location. */
  function MergeAll(cs: seq<Collection>): (r: Collection)
    decreases |cs|
  {
    if cs == [] then EmptyCollection() else Merge(MergeAll(cs[..|cs| - 1]), cs[|cs| - 1])
  }

  /** The merged collection holds the resources of every collection in order,
      and likewise the links. */
  lemma {:induction false} MergeAllConcatenates(cs: seq<Collection>)
    ensures MergeAll(cs).resources == AllResources(cs)
    ensures MergeAll(cs).links == AllLinks(cs)
  {
    if cs != [] {
      MergeAllConcatenates(cs[..|cs| - 1]);
      ConcatLast(cs);
    }
  }

  /** The resources of each collection, one collection after another. */
  function AllResources(cs: seq<Collection>): seq<Entity>
    decreases |cs|
  {
    if cs == [] then [] else cs[0].resources + AllResources(cs[1..])
  }

  function AllLinks(cs: seq<Collection>): seq<Entity>
    decreases |cs|
  {
    if cs == [] then [] else cs[0].links + AllLinks(cs[1..])
  }

  /** Merging one more collection in front of the concatenation of the rest
      gives the concatenation of all of them. */
  lemma MergeThenConcat(acc: Collection, cs: seq<Collection>, whole: Collection)
    requires cs != []
    requires whole.resources == Merge(acc, cs[0]).resources + AllResources(cs[1..])
    requires whole.links == Merge(acc, cs[0]).links + AllLinks(cs[1..])
    ensures whole.resources == acc.resources + AllResources(cs) && whole.links == acc.links + AllLinks(cs)
  {
    Regroup(acc.resources, cs[0].resources, AllResources(cs[1..]), whole.resources);
    Regroup(acc.links, cs[0].links, AllLinks(cs[1..]), whole.links);
  }

  /** Indexing a sequence that is one element followed by `tail`. */
  lemma AfterSingle<T>(xs: seq<T>, head: seq<T>, tail: seq<T>, i: nat)
    requires xs == head + tail && |head| == 1 && i < |xs|
    ensures i == 0 ==> xs[i] == head[0]
    ensures i > 0 ==> xs[i] == tail[i - 1]
  {
  }

  lemma Regroup<T>(a: seq<T>, b: seq<T>, c: seq<T>, w: seq<T>)
    requires w == (a + b) + c
    ensures w == a + (b + c)
  {
  }

  /** The collection `outcome` gives for each item, in order, and an empty one
      for an item it fails on. */
  function Outcomes<T>(outcome: T -> Result<Collection>, items: seq<T>): seq<Collection> {
    seq(|items|, i requires 0 <= i < |items| =>
      var o := outcome(items[i]);
      if o.Success? then o.value else EmptyCollection())
  }

  /** Merging the outcome of a single successful item gives its collection. */
  lemma SingleOutcome<T>(outcome: T -> Result<Collection>, item: T)
    requires outcome(item).Success?
    ensures MergeAll(Outcomes(outcome, [item])) == outcome(item).value
  {
    assert Outcomes(outcome, [item]) == [outcome(item).value];
    assert MergeAll([outcome(item).value]) == Merge(MergeAll([]), outcome(item).value);
  }

  /** The outcomes of all but the first item are the outcomes of the rest. */
  lemma OutcomesTail<T>(outcome: T -> Result<Collection>, items: seq<T>)
    requires items != []
    ensures var cs := Outcomes(outcome, items);
            cs[0] == (if outcome(items[0]).Success? then outcome(items[0]).value else EmptyCollection()) &&
            cs[1..] == Outcomes(outcome, items[1..])
  {
    var cs := Outcomes(outcome, items);
    var tail := Outcomes(outcome, items[1..]);
    forall i | 0 <= i < |tail|
      ensures cs[1..][i] == tail[i]
    {
      assert items[1..][i] == items[i + 1];
    }
  }

  /** Taking the last collection off the end of the concatenation. */
  lemma {:induction false} ConcatLast(cs: seq<Collection>)
    requires cs != []
    ensures AllResources(cs) == AllResources(cs[..|cs| - 1]) + cs[|cs| - 1].resources
    ensures AllLinks(cs) == AllLinks(cs[..|cs| - 1]) + cs[|cs| - 1].links
  {
    if |cs| > 1 {
      var init := cs[..|cs| - 1];
      var last := cs[|cs| - 1];
      ConcatLast(cs[1..]);
      assert cs[1..][..|cs[1..]| - 1] == init[1..] && cs[1..][|cs[1..]| - 1] == last && init[0] == cs[0];
      assert AllResources(init) == cs[0].resources + AllResources(init[1..]);
      assert AllLinks(init) == cs[0].links + AllLinks(init[1..]);
      Regroup(cs[0].resources, AllResources(init[1..]), last.resources, AllResources(init) + last.resources);
      Regroup(cs[0].links, AllLinks(init[1..]), last.links, AllLinks(init) + last.links);
    }
  }
}
