/**
 * The promises of the session-class engine, each stated on its own and
 * derived from the whole-engine theorems of `BindingProofs`.
 */
module Guarantees {
  import opened Wrappers
  import opened Dicts
  import opened SessionTypes
  import opened Rules
  import opened Binding
  import opened BindingProofs
  import opened SessionBase

  /** A private name (leading underscore) is never registered, and only names the class body annotates or assigns are. */
  lemma OnlyPublicBodyNamesRegistered(ns0: ODict<Value>, annotations: ODict<TypeTerm>, mute: bool, state: Store, table: Dict<Descriptor>)
    requires WellFormedNamespace(ns0) && annotations.Valid()
    ensures var reg := Bind(ns0, annotations, mute, state, table).registry;
      forall a :: a in reg.items ==> IsPublic(a) && (a in annotations.items || a in ns0.items)
  {
    BindRegistry(ns0, annotations, mute, state, table);
  }

  /**
   * Every public annotation is registered; its descriptor has a default
   * exactly when the class body gives the attribute a value, and then the
   * default is that value.
   */
  lemma AnnotatedDefaults(ns0: ODict<Value>, annotations: ODict<TypeTerm>, mute: bool, state: Store, table: Dict<Descriptor>)
    requires WellFormedNamespace(ns0) && annotations.Valid()
    ensures var reg := Bind(ns0, annotations, mute, state, table).registry;
      forall a :: IsPublic(a) && a in annotations.items ==>
        && a in reg.items
        && (reg.items[a].default.Some? <==> a in ns0.items)
        && (a in ns0.items ==> reg.items[a].default == Some(ns0.items[a]))
  {
    BindRegistry(ns0, annotations, mute, state, table);
  }

  /**
   * A public, unannotated value of the class body is registered, with
   * itself as default, exactly when it is not one of the ignored kinds; an
   * ignored one is left as it was.
   */
  lemma UnannotatedDefaults(ns0: ODict<Value>, annotations: ODict<TypeTerm>, mute: bool, state: Store, table: Dict<Descriptor>)
    requires WellFormedNamespace(ns0) && annotations.Valid()
    ensures var r := Bind(ns0, annotations, mute, state, table);
      forall a :: IsPublic(a) && a !in annotations.items && a in ns0.items ==>
        && (a in r.registry.items <==> !IsIgnored(ns0.items[a]))
        && (a in r.registry.items ==> r.registry.items[a].default == Some(ns0.items[a]))
        && (IsIgnored(ns0.items[a]) ==> a in r.ns.items && r.ns.items[a] == ns0.items[a])
  {
    BindRegistry(ns0, annotations, mute, state, table);
    BindNamespace(ns0, annotations, mute, state, table);
  }

  /** Every descriptor is bound to the resolved store under the key `__<module>.<qualname>.<attribute>__` (line 57). */
  lemma RegisteredKeys(ns0: ODict<Value>, annotations: ODict<TypeTerm>, mute: bool, state: Store, table: Dict<Descriptor>)
    requires WellFormedNamespace(ns0) && annotations.Valid()
    ensures var reg := Bind(ns0, annotations, mute, state, table).registry;
      forall a :: a in reg.items ==>
        reg.items[a].store == state && reg.items[a].key == FormatKey(ns0.items[ModuleAttr].s, ns0.items[QualnameAttr].s, a)
  {
    BindRegistry(ns0, annotations, mute, state, table);
  }

  /** No two attributes of one class share a store key. */
  lemma DistinctKeys(ns0: ODict<Value>, annotations: ODict<TypeTerm>, mute: bool, state: Store, table: Dict<Descriptor>)
    requires WellFormedNamespace(ns0) && annotations.Valid()
    ensures var reg := Bind(ns0, annotations, mute, state, table).registry;
      forall a, b :: a in reg.items && b in reg.items && a != b ==> reg.items[a].key != reg.items[b].key
  {
    var m := ns0.items[ModuleAttr].s;
    var q := ns0.items[QualnameAttr].s;
    var reg := Bind(ns0, annotations, mute, state, table).registry;
    RegisteredKeys(ns0, annotations, mute, state, table);
    forall a, b | a in reg.items && b in reg.items && a != b
      ensures reg.items[a].key != reg.items[b].key
    {
      if FormatKey(m, q, a) == FormatKey(m, q, b) {
        KeyDeterminesAttribute(m, q, a, b);
      }
    }
  }

  /**
   * The two warnings (lines 61-77): "redundant Unset" for a defaulted
   * attribute whose annotation admits `Unset`, "missing Unset" for an
   * undefaulted one whose annotation does not; at most one per attribute.
   */
  lemma WarningRules(ns0: ODict<Value>, annotations: ODict<TypeTerm>, mute: bool, state: Store, table: Dict<Descriptor>)
    requires WellFormedNamespace(ns0) && annotations.Valid()
    ensures var ws := Bind(ns0, annotations, mute, state, table).warnings;
      && (forall a :: Warning(a, RedundantUnset) in ws <==>
            IsPublic(a) && a in annotations.items && a in ns0.items && IsTypeStateVar(annotations.items[a]) && !mute)
      && (forall a :: Warning(a, MissingUnset) in ws <==>
            IsPublic(a) && a in annotations.items && a !in ns0.items && !IsTypeStateVar(annotations.items[a]) && !mute)
      && OnePerAttribute(ws)
  {
    var ws := Bind(ns0, annotations, mute, state, table).warnings;
    BindWarnings(ns0, annotations, mute, state, table);
  }

  /** When no public annotation meets either warning rule, the engine warns about nothing. */
  lemma SilentWhenNoRuleFires(ns0: ODict<Value>, annotations: ODict<TypeTerm>, mute: bool, state: Store, table: Dict<Descriptor>)
    requires WellFormedNamespace(ns0) && annotations.Valid()
    requires forall a :: a in annotations.items && IsPublic(a) ==>
      WarningFor(a in ns0.items, IsTypeStateVar(annotations.items[a]), mute) == None
    ensures Bind(ns0, annotations, mute, state, table).warnings == []
  {
    var ws := Bind(ns0, annotations, mute, state, table).warnings;
    BindWarnings(ns0, annotations, mute, state, table);
    HeadIsMember(ws);
  }

  /** With `mute_warnings=True` the engine warns about nothing. */
  lemma MutedMeansSilent(ns0: ODict<Value>, annotations: ODict<TypeTerm>, state: Store, table: Dict<Descriptor>)
    requires WellFormedNamespace(ns0) && annotations.Valid()
    ensures Bind(ns0, annotations, true, state, table).warnings == []
  {
    AnnotatedLoopMutedSilent(Start(ns0, state, table), annotations, |annotations.keys|,
      ns0.items[ModuleAttr].s, ns0.items[QualnameAttr].s, state);
  }

  lemma {:induction false} AnnotatedLoopMutedSilent(o0: Outcome, annotations: ODict<TypeTerm>, n: nat, m: string, q: string, state: Store)
    requires annotations.Valid() && n <= |annotations.keys|
    ensures AnnotatedLoop(o0, annotations, n, m, q, state, true).warnings == o0.warnings
  {
    if n > 0 {
      AnnotatedLoopMutedSilent(o0, annotations, n - 1, m, q, state);
    }
  }

  /** Muting warnings changes nothing but the warnings. */
  lemma MuteOnlyAffectsWarnings(ns0: ODict<Value>, annotations: ODict<TypeTerm>, state: Store, table: Dict<Descriptor>)
    requires WellFormedNamespace(ns0) && annotations.Valid()
    ensures Bind(ns0, annotations, true, state, table).ns == Bind(ns0, annotations, false, state, table).ns
    ensures Bind(ns0, annotations, true, state, table).registry == Bind(ns0, annotations, false, state, table).registry
  {
    var m := ns0.items[ModuleAttr].s;
    var q := ns0.items[QualnameAttr].s;
    AnnotatedLoopMute(Start(ns0, state, table), annotations, |annotations.keys|, m, q, state);
    var o1 := AnnotatedPhase(ns0, annotations, true, state, table);
    var o2 := AnnotatedPhase(ns0, annotations, false, state, table);
    DefaultLoopIgnoresWarnings(o1, o2, |o1.ns.keys|, m, q, state);
  }

  lemma {:induction false} AnnotatedLoopMute(o0: Outcome, annotations: ODict<TypeTerm>, n: nat, m: string, q: string, state: Store)
    requires annotations.Valid() && n <= |annotations.keys|
    ensures AnnotatedLoop(o0, annotations, n, m, q, state, true).ns == AnnotatedLoop(o0, annotations, n, m, q, state, false).ns
    ensures AnnotatedLoop(o0, annotations, n, m, q, state, true).registry == AnnotatedLoop(o0, annotations, n, m, q, state, false).registry
  {
    if n > 0 {
      AnnotatedLoopMute(o0, annotations, n - 1, m, q, state);
    }
  }

  /** The second loop reads only the namespace and the registry, never the warnings so far. */
  lemma {:induction false} DefaultLoopIgnoresWarnings(o1: Outcome, o2: Outcome, n: nat, m: string, q: string, state: Store)
    requires o1.ns == o2.ns && o1.registry == o2.registry
    requires n <= |o1.ns.keys| && ListedKeysPresent(o1.ns)
    ensures DefaultLoop(o1, n, m, q, state).ns == DefaultLoop(o2, n, m, q, state).ns
    ensures DefaultLoop(o1, n, m, q, state).registry == DefaultLoop(o2, n, m, q, state).registry
  {
    if n > 0 {
      DefaultLoopIgnoresWarnings(o1, o2, n - 1, m, q, state);
    }
  }

  // ---------------------------------------------------------------------
  // What the facade reports for a class the engine built

  /** `get_descriptors` lists the public annotations first, in annotation order, then the adopted unannotated values, in namespace order. */
  lemma DescriptorsInBindingOrder(ns0: ODict<Value>, annotations: ODict<TypeTerm>, mute: bool, state: Store, table: Dict<Descriptor>)
    requires WellFormedNamespace(ns0) && annotations.Valid()
    ensures var cls := SessionClass(Bind(ns0, annotations, mute, state, table).registry, state);
      var order := Keep(annotations.keys, IsPublic) + Keep(ns0.keys, UnannotatedDefaultIn(ns0, annotations));
      && cls.descriptors.Valid()
      && |GetDescriptors(cls)| == |order|
      && (forall i :: 0 <= i < |order| ==>
            Expected(ns0, annotations, order[i], state).Some? && GetDescriptors(cls)[i] == Expected(ns0, annotations, order[i], state).value)
  {
    BindValid(ns0, annotations, mute, state, table);
    BindRegistryOrder(ns0, annotations, mute, state, table);
    BindRegistry(ns0, annotations, mute, state, table);
  }

  /** `get_descriptor(a)` answers with the descriptor the engine gave `a`, or `AttributeError` when it gave none. */
  lemma LookupAfterBinding(ns0: ODict<Value>, annotations: ODict<TypeTerm>, mute: bool, state: Store, table: Dict<Descriptor>)
    requires WellFormedNamespace(ns0) && annotations.Valid()
    ensures var cls := SessionClass(Bind(ns0, annotations, mute, state, table).registry, state);
      forall a :: GetDescriptor(cls, a) ==
        match Expected(ns0, annotations, a, state)
        case Some(d) => Ok(d)
        case None => Err(NotASessionVariable(a))
  {
    BindRegistry(ns0, annotations, mute, state, table);
  }
}
