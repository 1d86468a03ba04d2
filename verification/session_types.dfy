/**
 * The values the binding engine handles: the external session store, its
 * provider, resolved type annotations, class-namespace values and
 * session variable descriptors.
 */
module SessionTypes {
  import opened Wrappers
  import opened Dicts

  /** The external session store (`SessionStateLike`): a mutable string-keyed mapping owned by the host. */
  class Store {
    var entries: map<string, Value>

    constructor (init: map<string, Value>)
      ensures entries == init
    {
      entries := init;
    }
  }

  /**
   * A zero-argument store provider (`SessionStateProvider`). What it does
   * inside the host is outside the model; it hands back `product` and
   * counts how often it was called.
   */
  class StoreProvider {
    var calls: nat
    const product: Store

    constructor (s: Store)
      ensures product == s && calls == 0
    {
      product := s;
      calls := 0;
    }

    method Call() returns (s: Store)
      modifies this
      ensures s == product
      ensures calls == old(calls) + 1
    {
      calls := calls + 1;
      s := product;
    }
  }

  /** The `state` class keyword: a store, or a callable producing one. */
  datatype StateSource = Direct(store: Store) | Provider(provider: StoreProvider)
  {
    function Footprint(): set<object> {
      if Provider? then {provider} else {}
    }
  }

  /** `typing.Union[...]` and `X | Y` (`types.UnionType`). */
  datatype UnionForm = TypingUnion | PipeUnion

  /**
   * A resolved annotation. `Union` carries the flattened arguments that
   * `typing.get_args` reports; `Generic` is any other subscripted type
   * (`list[int]`), whose origin is not a union.
   */
  datatype TypeTerm =
    | UnsetT
    | Named(name: string)
    | Generic(origin: string, args: seq<TypeTerm>)
    | Union(form: UnionForm, args: seq<TypeTerm>)

  /**
   * A session variable descriptor: the store it reads and writes, its key,
   * and its default (`None` for the required kind, `SessionVariableDescriptor`;
   * `Some` for `DefaultSessionVariableDescriptor`).
   */
  datatype Descriptor = Descriptor(store: Store, key: string, default: Option<Value>)

  /**
   * A value found in a class namespace. The first seven kinds are the ones
   * the engine never turns into session variables; `Str` and `Object` are
   * ordinary data; the last three are what the engine itself installs.
   */
  datatype Value =
    | Function
    | BuiltinFunction
    | BuiltinMethod
    | Property
    | ClassMethod
    | StaticMethod
    | TypeAlias
    | Str(s: string)
    | Object(id: nat)
    | Desc(descriptor: Descriptor)
    | StateRef(store: Store)
    | DescriptorTable(table: Dict<Descriptor>)

  /** A class built by the engine, as the facade sees it: its descriptor registry and its store. */
  datatype SessionClass = SessionClass(descriptors: ODict<Descriptor>, state: Store)

  /**
   * The errors of the core: two `AttributeError`s, and the `TypeError` a
   * read-only mapping view raises on item assignment.
   */
  datatype Error =
    | NotASessionVariable(name: string)
    | MissingMetaclassAttribute(name: string)
    | ReadOnlyAssignment(key: string)
}
