/** `EntityBuilder`: makes entities and action instances whose kind, mixin or
    action is resolved in the builder's model, by term (which may be
    ambiguous), by identifier, or — for the infrastructure classes — by the
    class's canonical identifier with a built-in default behind it.  The fresh
    `id` (a random UUID in the source) is a parameter. */
module EntityBuilder {
  import opened Wrappers
  import opened Errors
  import opened Categories
  import opened Entities

  const INFRASTRUCTURE_SCHEME := "http://schemas.ogf.org/occi/infrastructure#"
  const COMPUTE_KIND_ID := INFRASTRUCTURE_SCHEME + "compute"
  const NETWORK_KIND_ID := INFRASTRUCTURE_SCHEME + "network"
  const STORAGE_KIND_ID := INFRASTRUCTURE_SCHEME + "storage"
  const STORAGE_LINK_KIND_ID := INFRASTRUCTURE_SCHEME + "storagelink"
  const NETWORK_INTERFACE_KIND_ID := INFRASTRUCTURE_SCHEME + "networkinterface"
  const IP_NETWORK_MIXIN_ID := "http://schemas.ogf.org/occi/infrastructure/network#ipnetwork"
  const IP_NETWORK_INTERFACE_MIXIN_ID := "http://schemas.ogf.org/occi/infrastructure/networkinterface#ipnetworkinterface"

  /** The class argument of `getKind(Class)`: the five infrastructure classes,
      or any other class, known by its name. */
  datatype ResourceClass =
    | ComputeClass
    | NetworkClass
    | StorageClass
    | StorageLinkClass
    | NetworkInterfaceClass
    | OtherClass(name: string)

  /** The two IP specialisations, each a kind plus a mixin. */
  datatype IpClass = IpNetworkClass | IpNetworkInterfaceClass

  /** The built-in kinds and mixins of the infrastructure classes
      (`getDefaultKind()`, `getDefaultMixin()`). */
  datatype Defaults = Defaults(compute: Kind, network: Kind, storage: Kind, storageLink: Kind,
                               networkInterface: Kind, ipNetwork: Mixin, ipNetworkInterface: Mixin)

  /** The builder's model; `setModel` accepts null. */
  datatype Builder = Builder(model: Option<Model>)

  /** The constructor rejects a null model. */
  function NewBuilder(model: Option<Model>): (r: Result<Builder>)
    ensures model.None? <==> r.Failure?
    ensures r.Failure? ==> r.error == NullPointer("model cannot be null")
    ensures r.Success? ==> r.value.model == model
  {
    if model.None? then Failure(NullPointer("model cannot be null")) else Success(Builder(model))
  }

  /** `setModel`, which may clear the model. */
  function SetModel(b: Builder, model: Option<Model>): (r: Builder)
    ensures r.model == model
  {
    b.(model := model)
  }

  // ---------------------------------------------------------------------
  // Resolution
  // ---------------------------------------------------------------------

  /** The model every lookup goes through: a cleared model is dereferenced and
      fails with a `NullPointerException`. */
  function ModelOf(b: Builder): (r: Result<Model>)
    ensures r.Success? <==> b.model.Some?
    ensures r.Success? ==> r.value == b.model.value
    ensures r.Failure? ==> r.error == NullPointer("")
  {
    match b.model
    case None => Failure(NullPointer(""))
    case Some(m) => Success(m)
  }

  /** `getKind(String)`: the ambiguity is not yet wrapped. */
  function KindOfTerm(b: Builder, term: string): (r: Result<Kind>)
    ensures r.Success? ==> b.model.Some? && r.value in b.model.value.kinds && r.value.term == term
    ensures b.model.Some? && FindKind(b.model.value, term).NotFound? ==>
              r == Failure(EntityBuildingError("unknown type '" + term + "'"))
    ensures b.model.Some? && FindKind(b.model.value, term).Ambiguous? ==> r == Failure(AmbiguousIdentifier(term))
  {
    var m :- ModelOf(b);
    match FindKind(m, term)
    case Found(k) => Success(k)
    case NotFound => Failure(EntityBuildingError("unknown type '" + term + "'"))
    case Ambiguous => Failure(AmbiguousIdentifier(term))
  }

  /** `getKind(URI)`. */
  function KindOfId(b: Builder, id: string): (r: Result<Kind>)
    ensures r.Success? <==> b.model.Some? && exists i :: 0 <= i < |b.model.value.kinds| && KindId(b.model.value.kinds[i]) == id
    ensures r.Success? ==> r.value in b.model.value.kinds && KindId(r.value) == id
    ensures b.model.Some? && r.Failure? ==> r.error == EntityBuildingError("unknown identifier '" + id + "'")
  {
    var m :- ModelOf(b);
    match FindKindById(m, id)
    case Some(k) => Success(k)
    case None => Failure(EntityBuildingError("unknown identifier '" + id + "'"))
  }

  /** `getMixin(URI)`. */
  function MixinOfId(b: Builder, id: string): (r: Result<Mixin>)
    ensures r.Success? <==> b.model.Some? && exists i :: 0 <= i < |b.model.value.mixins| && MixinId(b.model.value.mixins[i]) == id
    ensures r.Success? ==> r.value in b.model.value.mixins && MixinId(r.value) == id
    ensures b.model.Some? && r.Failure? ==> r.error == EntityBuildingError("unknown identifier '" + id + "'")
  {
    var m :- ModelOf(b);
    match FindMixinById(m, id)
    case Some(x) => Success(x)
    case None => Failure(EntityBuildingError("unknown identifier '" + id + "'"))
  }

  /** `getAction(String)`. */
  function ActionOfTerm(b: Builder, term: string): (r: Result<Action>)
    ensures r.Success? ==> b.model.Some? && r.value in b.model.value.actions && r.value.term == term
    ensures b.model.Some? && FindAction(b.model.value, term).NotFound? ==>
              r == Failure(EntityBuildingError("unknown type '" + term + "'"))
    ensures b.model.Some? && FindAction(b.model.value, term).Ambiguous? ==> r == Failure(AmbiguousIdentifier(term))
  {
    var m :- ModelOf(b);
    match FindAction(m, term)
    case Found(a) => Success(a)
    case NotFound => Failure(EntityBuildingError("unknown type '" + term + "'"))
    case Ambiguous => Failure(AmbiguousIdentifier(term))
  }

  /** `getAction(URI)`. */
  function ActionOfId(b: Builder, id: string): (r: Result<Action>)
    ensures r.Success? <==> b.model.Some? && exists i :: 0 <= i < |b.model.value.actions| && ActionId(b.model.value.actions[i]) == id
    ensures r.Success? ==> r.value in b.model.value.actions && ActionId(r.value) == id
    ensures b.model.Some? && r.Failure? ==> r.error == EntityBuildingError("unknown identifier '" + id + "'")
  {
    var m :- ModelOf(b);
    match FindActionById(m, id)
    case Some(a) => Success(a)
    case None => Failure(EntityBuildingError("unknown identifier '" + id + "'"))
  }

  /** The canonical kind identifier of an infrastructure class. */
  function ClassKindId(c: ResourceClass): string
    requires !c.OtherClass?
  {
    match c
    case ComputeClass => COMPUTE_KIND_ID
    case NetworkClass => NETWORK_KIND_ID
    case StorageClass => STORAGE_KIND_ID
    case StorageLinkClass => STORAGE_LINK_KIND_ID
    case NetworkInterfaceClass => NETWORK_INTERFACE_KIND_ID
  }

  function ClassDefaultKind(d: Defaults, c: ResourceClass): Kind
    requires !c.OtherClass?
  {
    match c
    case ComputeClass => d.compute
    case NetworkClass => d.network
    case StorageClass => d.storage
    case StorageLinkClass => d.storageLink
    case NetworkInterfaceClass => d.networkInterface
  }

  /** `getKind(Class)`: the model's kind at the class's canonical identifier,
      else the built-in default.  Only an `EntityBuildingException` falls back
      to the default: a cleared model still fails. */
  function KindOfClass(b: Builder, d: Defaults, c: ResourceClass): (r: Result<Kind>)
    ensures c.OtherClass? ==> r == Failure(EntityBuildingError("unknown class '" + c.name + "'"))
    ensures !c.OtherClass? && b.model.Some? ==> r.Success?
    ensures !c.OtherClass? && b.model.None? ==> r == Failure(NullPointer(""))
    ensures !c.OtherClass? && b.model.Some? && FindKindById(b.model.value, ClassKindId(c)).Some? ==>
              r == Success(FindKindById(b.model.value, ClassKindId(c)).value)
    ensures !c.OtherClass? && b.model.Some? && FindKindById(b.model.value, ClassKindId(c)).None? ==>
              r == Success(ClassDefaultKind(d, c))
  {
    if c.OtherClass? then Failure(EntityBuildingError("unknown class '" + c.name + "'"))
    else
      match KindOfId(b, ClassKindId(c))
      case Success(k) => Success(k)
      case Failure(e) => if e.EntityBuildingError? then Success(ClassDefaultKind(d, c)) else Failure(e)
  }

  function IpKindClass(c: IpClass): ResourceClass {
    if c.IpNetworkClass? then NetworkClass else NetworkInterfaceClass
  }

  function IpMixinId(c: IpClass): string {
    if c.IpNetworkClass? then IP_NETWORK_MIXIN_ID else IP_NETWORK_INTERFACE_MIXIN_ID
  }

  function IpDefaultMixin(d: Defaults, c: IpClass): Mixin {
    if c.IpNetworkClass? then d.ipNetwork else d.ipNetworkInterface
  }

  /** The mixin of the default IP builders: the model's mixin at the canonical
      identifier, else the built-in default. */
  function IpMixin(b: Builder, d: Defaults, c: IpClass): (r: Result<Mixin>)
    ensures b.model.None? ==> r == Failure(NullPointer(""))
    ensures b.model.Some? && FindMixinById(b.model.value, IpMixinId(c)).Some? ==>
              r == Success(FindMixinById(b.model.value, IpMixinId(c)).value)
    ensures b.model.Some? && FindMixinById(b.model.value, IpMixinId(c)).None? ==> r == Success(IpDefaultMixin(d, c))
  {
    match MixinOfId(b, IpMixinId(c))
    case Success(x) => Success(x)
    case Failure(e) => if e.EntityBuildingError? then Success(IpDefaultMixin(d, c)) else Failure(e)
  }

  // ---------------------------------------------------------------------
  // Creation
  // ---------------------------------------------------------------------

  function ClassEntity(c: ResourceClass): EntityClass
    requires !c.OtherClass?
  {
    match c
    case ComputeClass => ComputeEntity
    case NetworkClass => NetworkEntity
    case StorageClass => StorageEntity
    case StorageLinkClass => StorageLinkEntity
    case NetworkInterfaceClass => NetworkInterfaceEntity
  }

  function IpEntity(c: IpClass): EntityClass {
    if c.IpNetworkClass? then IpNetworkEntity else IpNetworkInterfaceEntity
  }

  /** The `create*` helpers: a new entity of the class with the fresh id and
      the resolved kind, bound to the builder's model. */
  function Create(b: Builder, cls: EntityClass, kind: Kind, id: string): (r: Entity)
    ensures r.entityClass == cls && r.id == id && r.kind == Some(kind) && r.mixins == [] && r.model == b.model
  {
    Entity(cls, id, Some(kind), [], b.model)
  }

  /** Wraps the ambiguity of a term lookup, as the public getters do. */
  function WrapAmbiguity<T>(r: Result<T>): (w: Result<T>)
    ensures w.Success? <==> r.Success?
    ensures w.Success? ==> w.value == r.value
    ensures r.Failure? && r.error.AmbiguousIdentifier? ==> w.error == WrappedEntityBuilding(r.error)
    ensures r.Failure? && !r.error.AmbiguousIdentifier? ==> w.error == r.error
  {
    match r
    case Failure(AmbiguousIdentifier(t)) => Failure(WrappedEntityBuilding(AmbiguousIdentifier(t)))
    case _ => r
  }

  /** `getResource(String)` and `getLink(String)`. */
  function GetByTerm(b: Builder, cls: EntityClass, term: string, id: string): (r: Result<Entity>)
    requires cls.ResourceEntity? || cls.LinkEntity?
    ensures r.Success? ==> b.model.Some? && FindKind(b.model.value, term).Found? &&
                           r.value == Create(b, cls, FindKind(b.model.value, term).value, id)
    ensures b.model.Some? && FindKind(b.model.value, term).NotFound? ==>
              r == Failure(EntityBuildingError("unknown type '" + term + "'"))
    ensures b.model.Some? && FindKind(b.model.value, term).Ambiguous? ==>
              r == Failure(WrappedEntityBuilding(AmbiguousIdentifier(term)))
    ensures r.Failure? ==> r.error == NullPointer("") || r.error.EntityBuildingError? || r.error.WrappedEntityBuilding?
  {
    var kind :- WrapAmbiguity(KindOfTerm(b, term));
    Success(Create(b, cls, kind, id))
  }

  /** Building by term succeeds exactly when one kind of the model carries the
      term, and builds an instance of that kind. */
  lemma GetByTermUnique(b: Builder, cls: EntityClass, term: string, id: string)
    requires cls.ResourceEntity? || cls.LinkEntity?
    requires b.model.Some?
    ensures GetByTerm(b, cls, term, id).Success? <==> exists i :: OnlyMatch(b.model.value.kinds, KindTerm, term, i)
    ensures forall i :: OnlyMatch(b.model.value.kinds, KindTerm, term, i) ==>
              GetByTerm(b, cls, term, id) == Success(Create(b, cls, b.model.value.kinds[i], id))
  {
    FindByTermSpec(b.model.value.kinds, KindTerm, term);
  }

  /** `getResource(URI)`, `getLink(URI)` and the URI forms of the typed
      getters: no default behind the identifier. */
  function GetById(b: Builder, cls: EntityClass, kindId: string, id: string): (r: Result<Entity>)
    requires !cls.IpNetworkEntity? && !cls.IpNetworkInterfaceEntity?
    ensures r.Success? <==> b.model.Some? && FindKindById(b.model.value, kindId).Some?
    ensures r.Success? ==> r.value == Create(b, cls, FindKindById(b.model.value, kindId).value, id)
    ensures b.model.Some? && r.Failure? ==> r.error == EntityBuildingError("unknown identifier '" + kindId + "'")
  {
    var kind :- KindOfId(b, kindId);
    Success(Create(b, cls, kind, id))
  }

  /** `getCompute()`, `getNetwork()`, `getStorage()`, `getStorageLink()` and
      `getNetworkInterface()`. */
  function GetDefault(b: Builder, d: Defaults, c: ResourceClass, id: string): (r: Result<Entity>)
    requires !c.OtherClass?
    ensures r.Success? <==> b.model.Some?
    ensures r.Success? ==> r.value == Create(b, ClassEntity(c), KindOfClass(b, d, c).value, id)
  {
    var kind :- KindOfClass(b, d, c);
    Success(Create(b, ClassEntity(c), kind, id))
  }

  /** The default getter and the identifier getter agree whenever the model
      holds the canonical kind; otherwise only the default getter succeeds,
      with the built-in kind. */
  lemma DefaultAgreesWithLookup(b: Builder, d: Defaults, c: ResourceClass, id: string)
    requires !c.OtherClass? && b.model.Some?
    ensures GetById(b, ClassEntity(c), ClassKindId(c), id).Success? ==>
              GetDefault(b, d, c, id) == GetById(b, ClassEntity(c), ClassKindId(c), id)
    ensures GetById(b, ClassEntity(c), ClassKindId(c), id).Failure? ==>
              GetDefault(b, d, c, id) == Success(Create(b, ClassEntity(c), ClassDefaultKind(d, c), id))
  {
  }

  /** The two-argument IP getters: kind and mixin both by identifier, kind
      first. */
  function GetIpById(b: Builder, c: IpClass, kindId: string, mixinId: string, id: string): (r: Result<Entity>)
    ensures r.Success? <==> b.model.Some? && FindKindById(b.model.value, kindId).Some? &&
                            FindMixinById(b.model.value, mixinId).Some?
    ensures r.Success? ==> r.value.entityClass == IpEntity(c) && r.value.id == id &&
                           r.value.kind == FindKindById(b.model.value, kindId) &&
                           r.value.mixins == [FindMixinById(b.model.value, mixinId).value] && r.value.model == b.model
    ensures b.model.Some? && FindKindById(b.model.value, kindId).None? ==>
              r == Failure(EntityBuildingError("unknown identifier '" + kindId + "'"))
  {
    var kind :- KindOfId(b, kindId);
    var mixin :- MixinOfId(b, mixinId);
    Success(Create(b, IpEntity(c), kind, id).(mixins := [mixin]))
  }

  /** `getIPNetwork()` and `getIPNetworkInterface()`: the class's kind and the
      IP mixin, each from the model or else built in. */
  function GetIpDefault(b: Builder, d: Defaults, c: IpClass, id: string): (r: Result<Entity>)
    ensures r.Success? <==> b.model.Some?
    ensures r.Success? ==> r.value.entityClass == IpEntity(c) && r.value.id == id &&
                           r.value.kind == Some(KindOfClass(b, d, IpKindClass(c)).value) &&
                           r.value.mixins == [IpMixin(b, d, c).value] && r.value.model == b.model
  {
    match b.model
    case None => Failure(NullPointer(""))
    case Some(_) =>
      var kind := KindOfClass(b, d, IpKindClass(c)).value;
      Success(Create(b, IpEntity(c), kind, id).(mixins := [IpMixin(b, d, c).value]))
  }

  /** `getActionInstance(String)`. */
  function GetActionByTerm(b: Builder, term: string): (r: Result<ActionInstance>)
    ensures r.Success? ==> b.model.Some? && FindAction(b.model.value, term).Found? &&
                           r.value == ActionInstance(FindAction(b.model.value, term).value, b.model)
    ensures b.model.Some? && FindAction(b.model.value, term).NotFound? ==>
              r == Failure(EntityBuildingError("unknown type '" + term + "'"))
    ensures b.model.Some? && FindAction(b.model.value, term).Ambiguous? ==>
              r == Failure(WrappedEntityBuilding(AmbiguousIdentifier(term)))
  {
    var action :- WrapAmbiguity(ActionOfTerm(b, term));
    Success(ActionInstance(action, b.model))
  }

  /** `getActionInstance(URI)`. */
  function GetActionById(b: Builder, actionId: string): (r: Result<ActionInstance>)
    ensures r.Success? <==> b.model.Some? && FindActionById(b.model.value, actionId).Some?
    ensures r.Success? ==> r.value == ActionInstance(FindActionById(b.model.value, actionId).value, b.model)
    ensures b.model.Some? && r.Failure? ==> r.error == EntityBuildingError("unknown identifier '" + actionId + "'")
  {
    var action :- ActionOfId(b, actionId);
    Success(ActionInstance(action, b.model))
  }
}
