/**
 * What `SessionModelMetaclass.__new__` computes, as a function of its
 * inputs: the rewritten class namespace, the descriptor registry and the
 * warnings. The two folds follow the engine's two `for` loops step by step.
 */
module Binding {
  import opened Wrappers
  import opened Dicts
  import opened SessionTypes
  import opened Rules

  const StateAttr := "__state__"
  const DescriptorsAttr := "__session_descriptors__"
  const ModuleAttr := "__module__"
  const QualnameAttr := "__qualname__"

  /**
   * A class body's namespace as the class statement hands it over: a dict
   * that holds the module name and the qualified name as strings.
   */
  ghost predicate WellFormedNamespace(ns: ODict<Value>) {
    && ns.Valid()
    && ModuleAttr in ns.items && ns.items[ModuleAttr].Str?
    && QualnameAttr in ns.items && ns.items[QualnameAttr].Str?
  }

  /** The engine's state between steps. */
  datatype Outcome = Outcome(ns: ODict<Value>, registry: ODict<Descriptor>, warnings: seq<Warning>)

  /** Lines 47-50: the store and the (still empty) registry are placed in the namespace. */
  function Start(ns0: ODict<Value>, state: Store, table: Dict<Descriptor>): (r: Outcome)
    ensures r.registry == Empty() && r.warnings == []
    ensures r.ns.items == ns0.items[StateAttr := StateRef(state)][DescriptorsAttr := DescriptorTable(table)]
  {
    Outcome(ns0.Set(StateAttr, StateRef(state)).Set(DescriptorsAttr, DescriptorTable(table)), Empty(), [])
  }

  /** The warnings one annotated attribute adds (lines 61-77). */
  function WarningsOf(attr: string, hasDefault: bool, annotation: TypeTerm, mute: bool): seq<Warning> {
    match WarningFor(hasDefault, IsTypeStateVar(annotation), mute)
    case Some(kind) => [Warning(attr, kind)]
    case None => []
  }

  /** One iteration of the first loop (lines 54-85). */
  function AnnotatedStep(o: Outcome, attr: string, annotation: TypeTerm, m: string, q: string, state: Store, mute: bool): (r: Outcome)
  {
    if IsPrivate(attr) then o
    else
      var hasDefault := attr in o.ns.items;
      var d := Descriptor(state, FormatKey(m, q, attr), if hasDefault then Some(o.ns.items[attr]) else None);
      Outcome(o.ns.Set(attr, Desc(d)), o.registry.Set(attr, d), o.warnings + WarningsOf(attr, hasDefault, annotation, mute))
  }

  /** The first `n` iterations of the first loop, in annotation order. */
  function AnnotatedLoop(o0: Outcome, annotations: ODict<TypeTerm>, n: nat, m: string, q: string, state: Store, mute: bool): (r: Outcome)
    requires annotations.Valid() && n <= |annotations.keys|
  {
    if n == 0 then o0
    else
      var attr := annotations.keys[n - 1];
      AnnotatedStep(AnnotatedLoop(o0, annotations, n - 1, m, q, state, mute), attr, annotations.items[attr], m, q, state, mute)
  }

  /** One iteration of the second loop (lines 87-101): a public, unregistered, non-ignored entry becomes a defaulted descriptor. */
  function DefaultStep(o: Outcome, attr: string, m: string, q: string, state: Store): (r: Outcome)
    requires attr in o.ns.items
    ensures r.ns.keys == o.ns.keys && r.ns.items.Keys == o.ns.items.Keys && r.warnings == o.warnings
  {
    var value := o.ns.items[attr];
    if IsPrivate(attr) || attr in o.registry.items || IsIgnored(value) then o
    else
      var d := Descriptor(state, FormatKey(m, q, attr), Some(value));
      Outcome(o.ns.Set(attr, Desc(d)), o.registry.Set(attr, d), o.warnings)
  }

  /** The first `n` iterations of the second loop, over the namespace's keys in namespace order. */
  function DefaultLoop(o1: Outcome, n: nat, m: string, q: string, state: Store): (r: Outcome)
    requires n <= |o1.ns.keys| && ListedKeysPresent(o1.ns)
    ensures r.ns.keys == o1.ns.keys && r.ns.items.Keys == o1.ns.items.Keys && r.warnings == o1.warnings
  {
    if n == 0 then o1
    else
      DefaultStep(DefaultLoop(o1, n - 1, m, q, state), o1.ns.keys[n - 1], m, q, state)
  }

  /** Every listed key has an entry (half of `ODict.Valid`). */
  ghost predicate ListedKeysPresent(d: ODict<Value>) {
    forall i :: 0 <= i < |d.keys| ==> d.keys[i] in d.items
  }

  /** Lines 47-85: the store and registry placed, then every annotation bound. */
  function AnnotatedPhase(ns0: ODict<Value>, annotations: ODict<TypeTerm>, mute: bool, state: Store, table: Dict<Descriptor>): (r: Outcome)
    requires WellFormedNamespace(ns0) && annotations.Valid()
    ensures r.ns.Valid() && r.registry.Valid()
  {
    var m := ns0.items[ModuleAttr].s;
    var q := ns0.items[QualnameAttr].s;
    AnnotatedLoopValid(Start(ns0, state, table), annotations, |annotations.keys|, m, q, state, mute);
    AnnotatedLoop(Start(ns0, state, table), annotations, |annotations.keys|, m, q, state, mute)
  }

  /** Lines 47-101 as a whole, with the store already resolved to `state` and the registry object `table`. */
  function Bind(ns0: ODict<Value>, annotations: ODict<TypeTerm>, mute: bool, state: Store, table: Dict<Descriptor>): (r: Outcome)
    requires WellFormedNamespace(ns0) && annotations.Valid()
  {
    var o1 := AnnotatedPhase(ns0, annotations, mute, state, table);
    DefaultLoop(o1, |o1.ns.keys|, ns0.items[ModuleAttr].s, ns0.items[QualnameAttr].s, state)
  }

  /** The first loop keeps both dicts well formed. */
  lemma {:induction false} AnnotatedLoopValid(o0: Outcome, annotations: ODict<TypeTerm>, n: nat, m: string, q: string, state: Store, mute: bool)
    requires o0.ns.Valid() && o0.registry.Valid() && annotations.Valid() && n <= |annotations.keys|
    ensures var r := AnnotatedLoop(o0, annotations, n, m, q, state, mute); r.ns.Valid() && r.registry.Valid()
  {
    if n > 0 {
      AnnotatedLoopValid(o0, annotations, n - 1, m, q, state, mute);
    }
  }
}
