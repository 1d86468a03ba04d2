/**
 * Concrete class bodies run through the engine, as a user of the library
 * would write them.
 */
module Scenarios {
  import opened Wrappers
  import opened Dicts
  import opened SessionTypes
  import opened Rules
  import opened Binding
  import opened BindingProofs
  import opened Findings
  import opened Guarantees

  /**
   * class Profile(SessionBase):  # in module `app`
   *     name: str = "anon"
   *     age: int | Unset
   */
  function ProfileBody(): ODict<Value> {
    ODict([ModuleAttr, QualnameAttr, "name"], map[ModuleAttr := Str("app"), QualnameAttr := Str("Profile"), "name" := Str("anon")])
  }

  function ProfileAnnotations(): ODict<TypeTerm> {
    ODict(["name", "age"], map["name" := Named("str"), "age" := Union(PipeUnion, [Named("int"), UnsetT])])
  }

  lemma ProfileWellFormed()
    ensures WellFormedNamespace(ProfileBody()) && ProfileAnnotations().Valid()
  {
  }

  /** Two descriptors, in annotation order. */
  lemma ProfileOrder(state: Store, table: Dict<Descriptor>)
    ensures WellFormedNamespace(ProfileBody()) && ProfileAnnotations().Valid()
    ensures Bind(ProfileBody(), ProfileAnnotations(), false, state, table).registry.keys == ["name", "age"]
  {
    var ns0, annotations := ProfileBody(), ProfileAnnotations();
    ProfileWellFormed();
    assert Keep(ns0.keys, UnannotatedDefaultIn(ns0, annotations)) == [] by {
      KeepNone(ns0.keys, UnannotatedDefaultIn(ns0, annotations));
    }
    assert Keep(annotations.keys, IsPublic) == annotations.keys by {
      KeepAll(annotations.keys, IsPublic);
    }
    BindRegistryOrder(ns0, annotations, false, state, table);
  }

  /** `name` defaults to its inline value; `age` has no default. */
  lemma ProfileDefaults(state: Store, table: Dict<Descriptor>)
    ensures WellFormedNamespace(ProfileBody()) && ProfileAnnotations().Valid()
    ensures var reg := Bind(ProfileBody(), ProfileAnnotations(), false, state, table).registry;
      && "name" in reg.items && "age" in reg.items
      && reg.items["name"] == Descriptor(state, "__app.Profile.name__", Some(Str("anon")))
      && reg.items["age"] == Descriptor(state, "__app.Profile.age__", None)
  {
    var ns0, annotations := ProfileBody(), ProfileAnnotations();
    ProfileWellFormed();
    ProfileKeys();
    BindRegistryAt(ns0, annotations, false, state, table, "name");
    BindRegistryAt(ns0, annotations, false, state, table, "age");
  }

  lemma ProfileKeys()
    ensures FormatKey("app", "Profile", "name") == "__app.Profile.name__"
    ensures FormatKey("app", "Profile", "age") == "__app.Profile.age__"
  {
  }

  /** Neither attribute draws a warning: `name` has a default and no `Unset`, `age` has `Unset` and no default. */
  lemma ProfileSilent(state: Store, table: Dict<Descriptor>)
    ensures WellFormedNamespace(ProfileBody()) && ProfileAnnotations().Valid()
    ensures Bind(ProfileBody(), ProfileAnnotations(), false, state, table).warnings == []
  {
    var ns0, annotations := ProfileBody(), ProfileAnnotations();
    ProfileWellFormed();
    assert forall a :: a in annotations.items ==> a == "name" || a == "age";
    SilentWhenNoRuleFires(ns0, annotations, false, state, table);
  }

  /** As written, the same class body cannot be built. */
  lemma ProfileFailsAsWritten(state: Store, table: Dict<Descriptor>)
    ensures WellFormedNamespace(ProfileBody()) && ProfileAnnotations().Valid()
    ensures BindAsWritten(ProfileBody(), ProfileAnnotations(), false, state, table) == Err(MissingMetaclassAttribute("_is_type_state_var"))
  {
    ProfileWellFormed();
    AsWrittenFailsOnPublicAnnotation(ProfileBody(), ProfileAnnotations(), false, state, table);
    assert "name" in ProfileAnnotations().items;
  }

  /**
   * class Counter(SessionBase):  # in module `app`
   *     count: int
   */
  function CounterBody(): ODict<Value> {
    ODict([ModuleAttr, QualnameAttr], map[ModuleAttr := Str("app"), QualnameAttr := Str("Counter")])
  }

  function CounterAnnotations(): ODict<TypeTerm> {
    ODict(["count"], map["count" := Named("int")])
  }

  lemma CounterWellFormed()
    ensures WellFormedNamespace(CounterBody()) && CounterAnnotations().Valid()
  {
  }

  /** No default and no `Unset` in the annotation: one "missing Unset" warning. */
  lemma CounterWarns(state: Store, table: Dict<Descriptor>)
    ensures WellFormedNamespace(CounterBody()) && CounterAnnotations().Valid()
    ensures forall w :: w in Bind(CounterBody(), CounterAnnotations(), false, state, table).warnings <==>
      w == Warning("count", MissingUnset)
  {
    CounterWellFormed();
    BindWarnings(CounterBody(), CounterAnnotations(), false, state, table);
  }

  lemma CounterKey()
    ensures FormatKey("app", "Counter", "count") == "__app.Counter.count__"
  {
  }

  /** The only descriptor is a required one (no default) under the key `__app.Counter.count__`. */
  lemma CounterRegisters(state: Store, table: Dict<Descriptor>)
    ensures WellFormedNamespace(CounterBody()) && CounterAnnotations().Valid()
    ensures var reg := Bind(CounterBody(), CounterAnnotations(), false, state, table).registry;
      && (forall a :: a in reg.items <==> a == "count")
      && reg.items["count"] == Descriptor(state, "__app.Counter.count__", None)
  {
    var ns0, annotations := CounterBody(), CounterAnnotations();
    CounterWellFormed();
    CounterKey();
    BindRegistry(ns0, annotations, false, state, table);
  }

  /**
   * `SessionBase` itself: its annotations and methods are private or of
   * ignored kinds, so it registers no session variable.
   */
  function SessionBaseBody(): ODict<Value> {
    ODict(
      [ModuleAttr, QualnameAttr, "__init__", "get_descriptors", "get_descriptor", "get_state"],
      map[ModuleAttr := Str("streamlit_typed_session.session_base"), QualnameAttr := Str("SessionBase"),
          "__init__" := Function, "get_descriptors" := ClassMethod, "get_descriptor" := ClassMethod, "get_state" := ClassMethod])
  }

  function SessionBaseAnnotations(): ODict<TypeTerm> {
    ODict([DescriptorsAttr, StateAttr],
      map[DescriptorsAttr := Generic("typing.ClassVar", [Generic("dict", [Named("str"), Named("SessionVariableDescriptor")])]),
          StateAttr := Generic("typing.ClassVar", [Named("SessionStateLike")])])
  }

  lemma SessionBaseWellFormed()
    ensures WellFormedNamespace(SessionBaseBody()) && SessionBaseAnnotations().Valid()
  {
  }

  lemma SessionBaseRegistersNothing(state: Store, table: Dict<Descriptor>)
    ensures WellFormedNamespace(SessionBaseBody()) && SessionBaseAnnotations().Valid()
    ensures var r := Bind(SessionBaseBody(), SessionBaseAnnotations(), false, state, table);
      r.registry.items == map[] && r.warnings == []
  {
    var ns0, annotations := SessionBaseBody(), SessionBaseAnnotations();
    SessionBaseWellFormed();
    assert forall a :: a in annotations.items ==> IsPrivate(a);
    assert forall a :: a in ns0.items ==> IsPrivate(a) || IsIgnored(ns0.items[a]);
    SilentWhenNoRuleFires(ns0, annotations, false, state, table);
    BindRegistry(ns0, annotations, false, state, table);
    var r := Bind(ns0, annotations, false, state, table);
    assert forall a :: a !in r.registry.items;
  }
}
