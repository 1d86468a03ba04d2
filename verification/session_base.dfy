/**
 * The introspection class methods of `SessionBase`: they read a built
 * class's descriptor registry and store and change neither.
 */
module SessionBase {
  import opened Wrappers
  import opened Dicts
  import opened SessionTypes

  /** `get_descriptors`: every registered descriptor, in registration order. */
  function GetDescriptors(cls: SessionClass): (r: seq<Descriptor>)
    requires cls.descriptors.Valid()
    ensures |r| == |cls.descriptors.keys| == |cls.descriptors.items|
    ensures forall i :: 0 <= i < |r| ==> r[i] == cls.descriptors.items[cls.descriptors.keys[i]]
    ensures forall a :: a in cls.descriptors.items ==> cls.descriptors.items[a] in r
  {
    ValidSize(cls.descriptors);
    var r := Values(cls.descriptors);
    assert forall a :: a in cls.descriptors.items ==> exists i :: 0 <= i < |cls.descriptors.keys| && cls.descriptors.keys[i] == a;
    r
  }

  /** `get_descriptor`: the registered descriptor, or `AttributeError` naming the attribute. */
  function GetDescriptor(cls: SessionClass, name: string): (r: Result<Descriptor, Error>)
    ensures r.Ok? <==> name in cls.descriptors.items
    ensures r.Ok? ==> r.value == cls.descriptors.items[name]
    ensures r.Err? ==> r.error == NotASessionVariable(name)
  {
    if name !in cls.descriptors.items then Err(NotASessionVariable(name))
    else Ok(cls.descriptors.items[name])
  }

  /** What `get_state` hands out: a read-only `MappingProxyType` over the store, or the store itself. */
  datatype StateView = ReadOnlyView(store: Store) | LiveView(store: Store)
  {
    /** The entries seen through the view: always the store's current ones. */
    function Entries(): map<string, Value>
      reads store
    {
      store.entries
    }
  }

  /** `get_state`: read-only by default; `read_only=False` gives the live store. */
  function GetState(cls: SessionClass, readOnly: bool := true): (v: StateView)
    ensures v.store == cls.state
    ensures v.ReadOnlyView? <==> readOnly
  {
    if readOnly then ReadOnlyView(cls.state) else LiveView(cls.state)
  }

  /**
   * Item assignment through a view: the live store takes the new value;
   * the read-only view refuses with `TypeError` and the store is unchanged.
   */
  method Assign(v: StateView, key: string, value: Value) returns (r: Result<(), Error>)
    modifies v.store
    ensures v.LiveView? ==> r.Ok? && v.store.entries == old(v.store.entries)[key := value]
    ensures v.ReadOnlyView? ==> r == Err(ReadOnlyAssignment(key)) && v.store.entries == old(v.store.entries)
  {
    match v
    case ReadOnlyView(_) =>
      r := Err(ReadOnlyAssignment(key));
    case LiveView(store) =>
      store.entries := store.entries[key := value];
      r := Ok(());
  }

  /** Both views show exactly the class store's entries; the default view is the read-only one. */
  lemma ViewsShowTheStore(cls: SessionClass)
    ensures GetState(cls).ReadOnlyView?
    ensures GetState(cls).Entries() == GetState(cls, false).Entries() == cls.state.entries
  {
  }
}
