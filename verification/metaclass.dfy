/**
 * `SessionModelMetaclass.__new__`: resolves the store, then rewrites the
 * class namespace in place with its two loops, filling a fresh descriptor
 * registry. Its result is proved equal to `Binding.Bind`.
 */
module Metaclass {
  import opened Wrappers
  import opened Dicts
  import opened SessionTypes
  import opened Rules
  import opened Binding

  method New(ns: Dict<Value>, annotations: ODict<TypeTerm>, source: StateSource, muteWarnings: bool := false)
    returns (cls: SessionClass, table: Dict<Descriptor>, warnings: seq<Warning>)
    requires WellFormedNamespace(ns.Contents()) && annotations.Valid()
    modifies ns, source.Footprint()
    ensures fresh(table)
    // lines 44-45: a provider is called exactly once, a store is used as is
    ensures source.Direct? ==> cls.state == source.store
    ensures source.Provider? ==> cls.state == source.provider.product && source.provider.calls == old(source.provider.calls) + 1
    ensures var r := Bind(old(ns.Contents()), annotations, muteWarnings, cls.state, table);
      ns.Contents() == r.ns && table.Contents() == r.registry && warnings == r.warnings
    ensures cls.descriptors == table.Contents()
  {
    var state: Store;
    match source {
      case Direct(s) =>
        state := s;
      case Provider(p) =>
        state := p.Call();
    }
    ghost var ns0 := ns.Contents();
    ns.Set(StateAttr, StateRef(state));
    table := new Dict(Empty());
    ns.Set(DescriptorsAttr, DescriptorTable(table));
    ghost var o0 := Start(ns0, state, table);
    warnings := BindAnnotatedFields(ns, table, annotations, state, muteWarnings);
    AnnotatedLoopValid(o0, annotations, |annotations.keys|, ns0.items[ModuleAttr].s, ns0.items[QualnameAttr].s, state, muteWarnings);
    BindUnannotatedDefaults(ns, table, state, warnings);
    cls := SessionClass(table.Contents(), state);
  }

  /** Lines 54-85: every public annotated attribute gets a descriptor, and perhaps a warning. */
  method BindAnnotatedFields(ns: Dict<Value>, table: Dict<Descriptor>, annotations: ODict<TypeTerm>, state: Store, muteWarnings: bool)
    returns (warnings: seq<Warning>)
    requires WellFormedNamespace(ns.Contents()) && annotations.Valid()
    modifies ns, table
    ensures var m, q := old(ns.items[ModuleAttr].s), old(ns.items[QualnameAttr].s);
      Outcome(ns.Contents(), table.Contents(), warnings)
      == AnnotatedLoop(old(Outcome(ns.Contents(), table.Contents(), [])), annotations, |annotations.keys|, m, q, state, muteWarnings)
    ensures ModuleAttr in ns.items && ns.items[ModuleAttr] == old(ns.items[ModuleAttr])
    ensures QualnameAttr in ns.items && ns.items[QualnameAttr] == old(ns.items[QualnameAttr])
  {
    ghost var o0 := Outcome(ns.Contents(), table.Contents(), []);
    ghost var m, q := ns.items[ModuleAttr].s, ns.items[QualnameAttr].s;
    warnings := [];
    var i := 0;
    while i < |annotations.keys|
      invariant 0 <= i <= |annotations.keys|
      invariant Outcome(ns.Contents(), table.Contents(), warnings) == AnnotatedLoop(o0, annotations, i, m, q, state, muteWarnings)
      invariant ModuleAttr in ns.items && ns.items[ModuleAttr] == Str(m)
      invariant QualnameAttr in ns.items && ns.items[QualnameAttr] == Str(q)
    {
      ghost var before := Outcome(ns.Contents(), table.Contents(), warnings);
      var attribute := annotations.keys[i];
      if !IsPrivate(attribute) {
        warnings := BindAnnotatedField(ns, table, attribute, annotations.items[attribute], state, muteWarnings, warnings);
      }
      assert Outcome(ns.Contents(), table.Contents(), warnings) == AnnotatedStep(before, attribute, annotations.items[attribute], m, q, state, muteWarnings);
      i := i + 1;
    }
  }

  /** Lines 57-85, the body of the first loop for one public attribute. */
  method BindAnnotatedField(ns: Dict<Value>, table: Dict<Descriptor>, attribute: string, annotation: TypeTerm,
                            state: Store, muteWarnings: bool, warnings: seq<Warning>)
    returns (warnings': seq<Warning>)
    requires ModuleAttr in ns.items && ns.items[ModuleAttr].Str? && QualnameAttr in ns.items && ns.items[QualnameAttr].Str?
    requires !IsPrivate(attribute)
    modifies ns, table
    ensures var m, q := old(ns.items[ModuleAttr].s), old(ns.items[QualnameAttr].s);
      Outcome(ns.Contents(), table.Contents(), warnings')
      == AnnotatedStep(old(Outcome(ns.Contents(), table.Contents(), warnings)), attribute, annotation, m, q, state, muteWarnings)
    ensures ModuleAttr in ns.items && ns.items[ModuleAttr] == old(ns.items[ModuleAttr])
    ensures QualnameAttr in ns.items && ns.items[QualnameAttr] == old(ns.items[QualnameAttr])
  {
    var key := FormatKey(ns.items[ModuleAttr].s, ns.items[QualnameAttr].s, attribute);
    // The source calls `cls._is_type_state_var`, an attribute the metaclass does not
    // have; the module-level `_is_type_state_var` it evidently means is used here.
    var isTypeStateVar := IsTypeStateVar(annotation);
    warnings' := warnings;
    if attribute in ns.items && isTypeStateVar && !muteWarnings {
      warnings' := warnings' + [Warning(attribute, RedundantUnset)];
    } else if attribute !in ns.items && !isTypeStateVar && !muteWarnings {
      warnings' := warnings' + [Warning(attribute, MissingUnset)];
    }
    var descriptor := Descriptor(state, key, if attribute in ns.items then Some(ns.items[attribute]) else None);
    ns.Set(attribute, Desc(descriptor));
    table.Set(attribute, descriptor);
  }

  /** Lines 87-101: every other public entry that is not an ignored kind becomes a defaulted descriptor. */
  method BindUnannotatedDefaults(ns: Dict<Value>, table: Dict<Descriptor>, state: Store, ghost warnings: seq<Warning>)
    requires ModuleAttr in ns.items && ns.items[ModuleAttr].Str? && QualnameAttr in ns.items && ns.items[QualnameAttr].Str?
    requires ListedKeysPresent(ns.Contents())
    modifies ns, table
    ensures var m, q := old(ns.items[ModuleAttr].s), old(ns.items[QualnameAttr].s);
      var o1 := old(Outcome(ns.Contents(), table.Contents(), warnings));
      Outcome(ns.Contents(), table.Contents(), warnings) == DefaultLoop(o1, |o1.ns.keys|, m, q, state)
  {
    ghost var o1 := Outcome(ns.Contents(), table.Contents(), warnings);
    ghost var m, q := ns.items[ModuleAttr].s, ns.items[QualnameAttr].s;
    // Assigning to keys already present does not change the dict's key listing,
    // so iterating over a copy of it visits the same keys as `namespace.items()`.
    var names := ns.keys;
    var j := 0;
    while j < |names|
      invariant 0 <= j <= |names| && names == o1.ns.keys
      invariant Outcome(ns.Contents(), table.Contents(), warnings) == DefaultLoop(o1, j, m, q, state)
      invariant ModuleAttr in ns.items && ns.items[ModuleAttr] == Str(m)
      invariant QualnameAttr in ns.items && ns.items[QualnameAttr] == Str(q)
    {
      ghost var before := Outcome(ns.Contents(), table.Contents(), warnings);
      var attribute := names[j];
      var value := ns.items[attribute];
      if !IsPrivate(attribute) && attribute !in table.items && !IsIgnored(value) {
        var key := FormatKey(ns.items[ModuleAttr].s, ns.items[QualnameAttr].s, attribute);
        var descriptor := Descriptor(state, key, Some(value));
        ns.Set(attribute, Desc(descriptor));
        table.Set(attribute, descriptor);
      }
      assert Outcome(ns.Contents(), table.Contents(), warnings) == DefaultStep(before, attribute, m, q, state);
      j := j + 1;
    }
  }
}
