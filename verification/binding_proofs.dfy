/**
 * What the binding engine guarantees, proved about `Binding.Bind`: which
 * attributes are registered and with what descriptor, how the namespace
 * is rewritten, in what order, and which warnings are emitted.
 */
module BindingProofs {
  import opened Wrappers
  import opened Dicts
  import opened SessionTypes
  import opened Rules
  import opened Binding

  // ---------------------------------------------------------------------
  // The first loop (annotated attributes)

  /** The descriptor the first loop gives a public annotated attribute, read against the namespace `base` it started from. */
  function AnnotatedDescriptor(base: map<string, Value>, a: string, m: string, q: string, state: Store): Descriptor {
    Descriptor(state, FormatKey(m, q, a), if a in base then Some(base[a]) else None)
  }

  /** Public names not yet in `base`: the ones the first loop adds to the namespace. */
  function MissingFrom(base: map<string, Value>): string -> bool {
    a => IsPublic(a) && a !in base
  }

  ghost predicate OnePerAttribute(ws: seq<Warning>) {
    forall i, j :: 0 <= i < j < |ws| ==> ws[i].attr != ws[j].attr
  }

  lemma PrefixStep(s: seq<string>, n: nat)
    requires 0 < n <= |s| && Distinct(s)
    ensures s[..n] == s[..n - 1] + [s[n - 1]]
    ensures s[n - 1] !in s[..n - 1]
  {
    assert s[..n] == s[..n - 1] + [s[n - 1]];
    var p := s[..n - 1];
    forall i | 0 <= i < |p| ensures p[i] != s[n - 1] {
      assert p[i] == s[i];
    }
  }

  lemma {:induction false} AnnotatedLoopEntries(o0: Outcome, annotations: ODict<TypeTerm>, n: nat, m: string, q: string, state: Store, mute: bool)
    requires annotations.Valid() && n <= |annotations.keys| && o0.registry == Empty()
    ensures var r := AnnotatedLoop(o0, annotations, n, m, q, state, mute);
      && (forall a :: a in r.registry.items <==> a in annotations.keys[..n] && IsPublic(a))
      && (forall a :: a in r.registry.items ==> r.registry.items[a] == AnnotatedDescriptor(o0.ns.items, a, m, q, state))
      && (forall a :: a in r.ns.items <==> a in o0.ns.items || a in r.registry.items)
      && (forall a :: a in r.ns.items ==> r.ns.items[a] == if a in r.registry.items then Desc(r.registry.items[a]) else o0.ns.items[a])
  {
    if n > 0 {
      AnnotatedLoopEntries(o0, annotations, n - 1, m, q, state, mute);
      PrefixStep(annotations.keys, n);
    }
  }

  /** `AnnotatedLoopEntries` for one attribute. */
  lemma AnnotatedLoopEntriesAt(o0: Outcome, annotations: ODict<TypeTerm>, n: nat, m: string, q: string, state: Store, mute: bool, a: string)
    requires annotations.Valid() && n <= |annotations.keys| && o0.registry == Empty()
    ensures var r := AnnotatedLoop(o0, annotations, n, m, q, state, mute);
      && (a in r.registry.items <==> a in annotations.keys[..n] && IsPublic(a))
      && (a in r.ns.items <==> a in o0.ns.items || a in r.registry.items)
      && (a in r.ns.items && a !in r.registry.items ==> r.ns.items[a] == o0.ns.items[a])
  {
    AnnotatedLoopEntries(o0, annotations, n, m, q, state, mute);
  }

  lemma {:induction false} AnnotatedLoopOrder(o0: Outcome, annotations: ODict<TypeTerm>, n: nat, m: string, q: string, state: Store, mute: bool)
    requires annotations.Valid() && n <= |annotations.keys| && o0.registry == Empty()
    ensures var r := AnnotatedLoop(o0, annotations, n, m, q, state, mute);
      && r.registry.keys == Keep(annotations.keys[..n], IsPublic)
      && r.ns.keys == o0.ns.keys + Keep(annotations.keys[..n], MissingFrom(o0.ns.items))
  {
    if n > 0 {
      var attr := annotations.keys[n - 1];
      AnnotatedLoopOrder(o0, annotations, n - 1, m, q, state, mute);
      AnnotatedLoopEntriesAt(o0, annotations, n - 1, m, q, state, mute, attr);
      PrefixStep(annotations.keys, n);
      var r' := AnnotatedLoop(o0, annotations, n - 1, m, q, state, mute);
      var r := AnnotatedLoop(o0, annotations, n, m, q, state, mute);
      var s := annotations.keys[..n];
      assert s[..|s| - 1] == annotations.keys[..n - 1] && s[|s| - 1] == attr;
      var missing := MissingFrom(o0.ns.items);
      assert missing(attr) == (IsPublic(attr) && attr !in o0.ns.items);
      var kept := Keep(annotations.keys[..n - 1], missing);
      assert Keep(s, missing) == kept + (if missing(attr) then [attr] else []);
      if IsPublic(attr) {
        assert attr !in r'.registry.items;
        assert r.registry.keys == r'.registry.keys + [attr];
        assert attr in r'.ns.items <==> attr in o0.ns.items;
        if attr in o0.ns.items {
          assert r.ns.keys == r'.ns.keys;
        } else {
          assert r.ns.keys == r'.ns.keys + [attr] == o0.ns.keys + (kept + [attr]);
        }
      }
    }
  }

  lemma {:induction false} AnnotatedLoopWarnings(o0: Outcome, annotations: ODict<TypeTerm>, n: nat, m: string, q: string, state: Store, mute: bool)
    requires annotations.Valid() && n <= |annotations.keys| && o0.registry == Empty() && o0.warnings == []
    ensures var r := AnnotatedLoop(o0, annotations, n, m, q, state, mute);
      && (forall w :: w in r.warnings <==>
            && w.attr in annotations.keys[..n] && IsPublic(w.attr)
            && WarningFor(w.attr in o0.ns.items, IsTypeStateVar(annotations.items[w.attr]), mute) == Some(w.kind))
      && OnePerAttribute(r.warnings)
  {
    if n > 0 {
      var attr := annotations.keys[n - 1];
      AnnotatedLoopWarnings(o0, annotations, n - 1, m, q, state, mute);
      AnnotatedLoopEntriesAt(o0, annotations, n - 1, m, q, state, mute, attr);
      PrefixStep(annotations.keys, n);
      var r' := AnnotatedLoop(o0, annotations, n - 1, m, q, state, mute);
      var r := AnnotatedLoop(o0, annotations, n, m, q, state, mute);
      if IsPublic(attr) {
        assert attr in r'.ns.items <==> attr in o0.ns.items;
        var added := WarningsOf(attr, attr in o0.ns.items, annotations.items[attr], mute);
        assert r.warnings == r'.warnings + added;
        assert forall w :: w in added <==> w.attr == attr && WarningFor(attr in o0.ns.items, IsTypeStateVar(annotations.items[attr]), mute) == Some(w.kind);
        forall w | w in r'.warnings ensures w.attr != attr {
        }
      } else {
        assert r == r';
      }
    }
  }

  // ---------------------------------------------------------------------
  // The second loop (unannotated defaults)

  /** What the second loop turns into a defaulted descriptor: a public, unregistered entry that is not an ignored kind. */
  predicate Adoptable(o1: Outcome, a: string) {
    IsPublic(a) && a !in o1.registry.items && a in o1.ns.items && !IsIgnored(o1.ns.items[a])
  }

  function AdoptableIn(o1: Outcome): string -> bool {
    a => Adoptable(o1, a)
  }

  lemma {:induction false} DefaultLoopEntries(o1: Outcome, n: nat, m: string, q: string, state: Store)
    requires Distinct(o1.ns.keys) && ListedKeysPresent(o1.ns) && n <= |o1.ns.keys|
    ensures var r := DefaultLoop(o1, n, m, q, state);
      && (forall a :: a in r.registry.items <==> a in o1.registry.items || (a in o1.ns.keys[..n] && Adoptable(o1, a)))
      && (forall a :: a in r.registry.items ==>
            r.registry.items[a] == if a in o1.registry.items then o1.registry.items[a] else Descriptor(state, FormatKey(m, q, a), Some(o1.ns.items[a])))
      && (forall a :: a in r.ns.items ==>
            r.ns.items[a] == if a in r.registry.items && a !in o1.registry.items then Desc(r.registry.items[a]) else o1.ns.items[a])
  {
    if n > 0 {
      DefaultLoopEntries(o1, n - 1, m, q, state);
      PrefixStep(o1.ns.keys, n);
      var r' := DefaultLoop(o1, n - 1, m, q, state);
      var r := DefaultLoop(o1, n, m, q, state);
      var attr := o1.ns.keys[n - 1];
      if attr in o1.registry.items {
        assert attr in r'.registry.items;
        assert r == r';
      } else {
        assert attr !in r'.registry.items;
        assert r'.ns.items[attr] == o1.ns.items[attr];
        if Adoptable(o1, attr) {
          var d := Descriptor(state, FormatKey(m, q, attr), Some(o1.ns.items[attr]));
          assert r.registry.items == r'.registry.items[attr := d];
          assert r.ns.items == r'.ns.items[attr := Desc(d)];
        } else {
          assert r == r';
        }
      }
    }
  }

  /** `DefaultLoopEntries` for one attribute. */
  lemma DefaultLoopEntriesAt(o1: Outcome, n: nat, m: string, q: string, state: Store, a: string)
    requires Distinct(o1.ns.keys) && ListedKeysPresent(o1.ns) && n <= |o1.ns.keys|
    ensures var r := DefaultLoop(o1, n, m, q, state);
      && (a in r.registry.items <==> a in o1.registry.items || (a in o1.ns.keys[..n] && Adoptable(o1, a)))
      && (a in r.registry.items ==>
            r.registry.items[a] == if a in o1.registry.items then o1.registry.items[a] else Descriptor(state, FormatKey(m, q, a), Some(o1.ns.items[a])))
      && (a in r.ns.items ==>
            r.ns.items[a] == if a in r.registry.items && a !in o1.registry.items then Desc(r.registry.items[a]) else o1.ns.items[a])
  {
    DefaultLoopEntries(o1, n, m, q, state);
  }

  lemma {:induction false} DefaultLoopOrder(o1: Outcome, n: nat, m: string, q: string, state: Store)
    requires Distinct(o1.ns.keys) && ListedKeysPresent(o1.ns) && n <= |o1.ns.keys|
    ensures var r := DefaultLoop(o1, n, m, q, state);
      r.registry.keys == o1.registry.keys + Keep(o1.ns.keys[..n], AdoptableIn(o1))
  {
    if n > 0 {
      var attr := o1.ns.keys[n - 1];
      DefaultLoopOrder(o1, n - 1, m, q, state);
      DefaultLoopEntriesAt(o1, n - 1, m, q, state, attr);
      PrefixStep(o1.ns.keys, n);
      var r' := DefaultLoop(o1, n - 1, m, q, state);
      var r := DefaultLoop(o1, n, m, q, state);
      var s := o1.ns.keys[..n];
      assert s[..|s| - 1] == o1.ns.keys[..n - 1] && s[|s| - 1] == attr;
      var adopt := AdoptableIn(o1);
      var kept := Keep(o1.ns.keys[..n - 1], adopt);
      assert Keep(s, adopt) == kept + (if adopt(attr) then [attr] else []);
      assert adopt(attr) == Adoptable(o1, attr);
      if attr in o1.registry.items {
        assert attr in r'.registry.items;
        assert r == r';
      } else {
        assert attr !in r'.registry.items;
        assert r'.ns.items[attr] == o1.ns.items[attr];
        if adopt(attr) {
          assert r.registry.keys == r'.registry.keys + [attr];
          assert r'.registry.keys == o1.registry.keys + kept;
        } else {
          assert r == r';
        }
      }
    }
  }

  lemma {:induction false} DefaultLoopValid(o1: Outcome, n: nat, m: string, q: string, state: Store)
    requires ListedKeysPresent(o1.ns) && o1.registry.Valid() && n <= |o1.ns.keys|
    ensures DefaultLoop(o1, n, m, q, state).registry.Valid()
  {
    if n > 0 {
      DefaultLoopValid(o1, n - 1, m, q, state);
    }
  }

  // ---------------------------------------------------------------------
  // The whole engine

  /** The descriptor the engine gives attribute `a` of a class body `ns0`, if any. */
  function Expected(ns0: ODict<Value>, annotations: ODict<TypeTerm>, a: string, state: Store): Option<Descriptor>
    requires WellFormedNamespace(ns0)
  {
    var key := FormatKey(ns0.items[ModuleAttr].s, ns0.items[QualnameAttr].s, a);
    if IsPrivate(a) then None
    else if a in annotations.items then Some(Descriptor(state, key, if a in ns0.items then Some(ns0.items[a]) else None))
    else if a in ns0.items && !IsIgnored(ns0.items[a]) then Some(Descriptor(state, key, Some(ns0.items[a])))
    else None
  }

  /** Which unannotated entries of a class body become defaulted descriptors. */
  function UnannotatedDefaultIn(ns0: ODict<Value>, annotations: ODict<TypeTerm>): string -> bool {
    a => IsPublic(a) && a !in annotations.items && a in ns0.items && !IsIgnored(ns0.items[a])
  }

  /** `__state__` and `__session_descriptors__`, for whichever the class body did not already define. */
  function InstalledNames(ns0: ODict<Value>): seq<string> {
    (if StateAttr in ns0.items then [] else [StateAttr]) + (if DescriptorsAttr in ns0.items then [] else [DescriptorsAttr])
  }

  lemma StartShape(ns0: ODict<Value>, state: Store, table: Dict<Descriptor>)
    requires ns0.Valid()
    ensures var s := Start(ns0, state, table);
      && s.ns.Valid()
      && s.ns.keys == ns0.keys + InstalledNames(ns0)
      && (forall a :: IsPublic(a) ==> (a in s.ns.items <==> a in ns0.items))
      && (forall a :: IsPublic(a) && a in ns0.items ==> s.ns.items[a] == ns0.items[a])
  {
    assert IsPrivate(StateAttr) && IsPrivate(DescriptorsAttr);
    assert StateAttr != DescriptorsAttr;
  }

  /** What the first phase leaves behind, in terms of the class body `ns0`. */
  lemma AnnotatedPhaseFacts(ns0: ODict<Value>, annotations: ODict<TypeTerm>, mute: bool, state: Store, table: Dict<Descriptor>)
    requires WellFormedNamespace(ns0) && annotations.Valid()
    ensures var o1 := AnnotatedPhase(ns0, annotations, mute, state, table);
      var m := ns0.items[ModuleAttr].s;
      var q := ns0.items[QualnameAttr].s;
      && (forall a :: a in o1.registry.items <==> a in annotations.items && IsPublic(a))
      && (forall a :: a in o1.registry.items ==> o1.registry.items[a] == AnnotatedDescriptor(ns0.items, a, m, q, state))
      && (forall a :: a in o1.ns.items <==> a in ns0.items || a in o1.registry.items || a == StateAttr || a == DescriptorsAttr)
      && (forall a :: a in o1.ns.items ==>
            o1.ns.items[a] ==
              if a in o1.registry.items then Desc(o1.registry.items[a])
              else if a == StateAttr then StateRef(state)
              else if a == DescriptorsAttr then DescriptorTable(table)
              else ns0.items[a])
  {
    var m := ns0.items[ModuleAttr].s;
    var q := ns0.items[QualnameAttr].s;
    var s0 := Start(ns0, state, table);
    StartShape(ns0, state, table);
    AnnotatedLoopEntries(s0, annotations, |annotations.keys|, m, q, state, mute);
    assert annotations.keys[..|annotations.keys|] == annotations.keys;
    var o1 := AnnotatedPhase(ns0, annotations, mute, state, table);
    forall a | a in o1.registry.items
      ensures o1.registry.items[a] == AnnotatedDescriptor(ns0.items, a, m, q, state)
    {
      assert IsPublic(a);
    }
  }

  /** `AnnotatedPhaseFacts` for one attribute. */
  lemma AnnotatedPhaseAt(ns0: ODict<Value>, annotations: ODict<TypeTerm>, mute: bool, state: Store, table: Dict<Descriptor>, a: string)
    requires WellFormedNamespace(ns0) && annotations.Valid()
    ensures var o1 := AnnotatedPhase(ns0, annotations, mute, state, table);
      && (a in o1.registry.items <==> a in annotations.items && IsPublic(a))
      && (a in o1.registry.items ==>
            o1.registry.items[a] == AnnotatedDescriptor(ns0.items, a, ns0.items[ModuleAttr].s, ns0.items[QualnameAttr].s, state))
      && (a in o1.ns.items <==> a in ns0.items || a in o1.registry.items || a == StateAttr || a == DescriptorsAttr)
      && (a in o1.ns.items ==>
            o1.ns.items[a] ==
              if a in o1.registry.items then Desc(o1.registry.items[a])
              else if a == StateAttr then StateRef(state)
              else if a == DescriptorsAttr then DescriptorTable(table)
              else ns0.items[a])
  {
    AnnotatedPhaseFacts(ns0, annotations, mute, state, table);
  }

  /** The second loop run to completion. */
  lemma DefaultLoopAll(o1: Outcome, m: string, q: string, state: Store)
    requires o1.ns.Valid()
    ensures var r := DefaultLoop(o1, |o1.ns.keys|, m, q, state);
      && (forall a :: a in r.registry.items <==> a in o1.registry.items || Adoptable(o1, a))
      && (forall a :: a in r.registry.items ==>
            r.registry.items[a] == if a in o1.registry.items then o1.registry.items[a] else Descriptor(state, FormatKey(m, q, a), Some(o1.ns.items[a])))
      && (forall a :: a in r.ns.items ==>
            r.ns.items[a] == if a in r.registry.items && a !in o1.registry.items then Desc(r.registry.items[a]) else o1.ns.items[a])
  {
    DefaultLoopEntries(o1, |o1.ns.keys|, m, q, state);
    assert o1.ns.keys[..|o1.ns.keys|] == o1.ns.keys;
  }

  /** `DefaultLoopAll` for one attribute. */
  lemma DefaultLoopAt(o1: Outcome, m: string, q: string, state: Store, a: string)
    requires o1.ns.Valid()
    ensures var r := DefaultLoop(o1, |o1.ns.keys|, m, q, state);
      && (a in r.registry.items <==> a in o1.registry.items || Adoptable(o1, a))
      && (a in r.registry.items ==>
            r.registry.items[a] == if a in o1.registry.items then o1.registry.items[a] else Descriptor(state, FormatKey(m, q, a), Some(o1.ns.items[a])))
      && (a in r.ns.items <==> a in o1.ns.items)
      && (a in r.ns.items ==>
            r.ns.items[a] == if a in r.registry.items && a !in o1.registry.items then Desc(r.registry.items[a]) else o1.ns.items[a])
  {
    DefaultLoopAll(o1, m, q, state);
  }

  /** Registered attributes and their descriptors after the whole engine (lines 54-101). */
  lemma BindRegistry(ns0: ODict<Value>, annotations: ODict<TypeTerm>, mute: bool, state: Store, table: Dict<Descriptor>)
    requires WellFormedNamespace(ns0) && annotations.Valid()
    ensures var r := Bind(ns0, annotations, mute, state, table);
      forall a :: (a in r.registry.items <==> Expected(ns0, annotations, a, state).Some?)
        && (a in r.registry.items ==> r.registry.items[a] == Expected(ns0, annotations, a, state).value)
  {
    var r := Bind(ns0, annotations, mute, state, table);
    forall a
      ensures a in r.registry.items <==> Expected(ns0, annotations, a, state).Some?
      ensures a in r.registry.items ==> r.registry.items[a] == Expected(ns0, annotations, a, state).value
    {
      BindRegistryAt(ns0, annotations, mute, state, table, a);
    }
  }

  lemma BindRegistryAt(ns0: ODict<Value>, annotations: ODict<TypeTerm>, mute: bool, state: Store, table: Dict<Descriptor>, a: string)
    requires WellFormedNamespace(ns0) && annotations.Valid()
    ensures var r := Bind(ns0, annotations, mute, state, table);
      && (a in r.registry.items <==> Expected(ns0, annotations, a, state).Some?)
      && (a in r.registry.items ==> r.registry.items[a] == Expected(ns0, annotations, a, state).value)
  {
    var m := ns0.items[ModuleAttr].s;
    var q := ns0.items[QualnameAttr].s;
    var o1 := AnnotatedPhase(ns0, annotations, mute, state, table);
    AnnotatedPhaseAt(ns0, annotations, mute, state, table, a);
    DefaultLoopAt(o1, m, q, state, a);
    var r := DefaultLoop(o1, |o1.ns.keys|, m, q, state);
    assert r == Bind(ns0, annotations, mute, state, table);
    if IsPrivate(a) {
      assert a !in o1.registry.items && !Adoptable(o1, a);
    } else if a in annotations.items {
      assert a in o1.registry.items;
    } else if a in ns0.items {
      assert a in o1.ns.items && a !in o1.registry.items && o1.ns.items[a] == ns0.items[a];
      assert Adoptable(o1, a) == !IsIgnored(ns0.items[a]);
    } else {
      assert a !in o1.registry.items && a !in o1.ns.items;
      assert !Adoptable(o1, a);
    }
  }

  /** The namespace after the whole engine: every registered name holds its descriptor, `__state__` and `__session_descriptors__` are installed, nothing else changes. */
  lemma BindNamespace(ns0: ODict<Value>, annotations: ODict<TypeTerm>, mute: bool, state: Store, table: Dict<Descriptor>)
    requires WellFormedNamespace(ns0) && annotations.Valid()
    ensures var r := Bind(ns0, annotations, mute, state, table);
      && (forall a :: a in r.ns.items <==> a in ns0.items || a in r.registry.items || a == StateAttr || a == DescriptorsAttr)
      && (forall a :: a in r.ns.items ==>
            r.ns.items[a] ==
              if a in r.registry.items then Desc(r.registry.items[a])
              else if a == StateAttr then StateRef(state)
              else if a == DescriptorsAttr then DescriptorTable(table)
              else ns0.items[a])
  {
    var r := Bind(ns0, annotations, mute, state, table);
    forall a
      ensures a in r.ns.items <==> a in ns0.items || a in r.registry.items || a == StateAttr || a == DescriptorsAttr
      ensures a in r.ns.items ==>
        r.ns.items[a] ==
          if a in r.registry.items then Desc(r.registry.items[a])
          else if a == StateAttr then StateRef(state)
          else if a == DescriptorsAttr then DescriptorTable(table)
          else ns0.items[a]
    {
      BindNamespaceAt(ns0, annotations, mute, state, table, a);
    }
  }

  lemma BindNamespaceAt(ns0: ODict<Value>, annotations: ODict<TypeTerm>, mute: bool, state: Store, table: Dict<Descriptor>, a: string)
    requires WellFormedNamespace(ns0) && annotations.Valid()
    ensures var r := Bind(ns0, annotations, mute, state, table);
      && (a in r.ns.items <==> a in ns0.items || a in r.registry.items || a == StateAttr || a == DescriptorsAttr)
      && (a in r.ns.items ==>
            r.ns.items[a] ==
              if a in r.registry.items then Desc(r.registry.items[a])
              else if a == StateAttr then StateRef(state)
              else if a == DescriptorsAttr then DescriptorTable(table)
              else ns0.items[a])
  {
    var m := ns0.items[ModuleAttr].s;
    var q := ns0.items[QualnameAttr].s;
    var o1 := AnnotatedPhase(ns0, annotations, mute, state, table);
    AnnotatedPhaseAt(ns0, annotations, mute, state, table, a);
    DefaultLoopAt(o1, m, q, state, a);
    var r := DefaultLoop(o1, |o1.ns.keys|, m, q, state);
    assert r == Bind(ns0, annotations, mute, state, table);
    if a in r.registry.items && a !in o1.registry.items {
      assert Adoptable(o1, a);
    }
  }

  /** Both dicts the engine leaves behind are well formed. */
  lemma BindValid(ns0: ODict<Value>, annotations: ODict<TypeTerm>, mute: bool, state: Store, table: Dict<Descriptor>)
    requires WellFormedNamespace(ns0) && annotations.Valid()
    ensures var r := Bind(ns0, annotations, mute, state, table); r.ns.Valid() && r.registry.Valid()
  {
    var o1 := AnnotatedPhase(ns0, annotations, mute, state, table);
    DefaultLoopValid(o1, |o1.ns.keys|, ns0.items[ModuleAttr].s, ns0.items[QualnameAttr].s, state);
  }

  /** Registry order: the public annotations in annotation order, then the adopted unannotated values in namespace order. */
  lemma BindRegistryOrder(ns0: ODict<Value>, annotations: ODict<TypeTerm>, mute: bool, state: Store, table: Dict<Descriptor>)
    requires WellFormedNamespace(ns0) && annotations.Valid()
    ensures Bind(ns0, annotations, mute, state, table).registry.keys
         == Keep(annotations.keys, IsPublic) + Keep(ns0.keys, UnannotatedDefaultIn(ns0, annotations))
  {
    var m := ns0.items[ModuleAttr].s;
    var q := ns0.items[QualnameAttr].s;
    var n := |annotations.keys|;
    var o1 := AnnotatedPhase(ns0, annotations, mute, state, table);
    AnnotatedLoopOrder(Start(ns0, state, table), annotations, n, m, q, state, mute);
    assert annotations.keys[..n] == annotations.keys;
    DefaultLoopOrder(o1, |o1.ns.keys|, m, q, state);
    assert o1.ns.keys[..|o1.ns.keys|] == o1.ns.keys;
    AdoptedFromBody(ns0, annotations, mute, state, table);
  }

  /** The second loop adopts exactly the unannotated defaults, and only from the class body's own names. */
  lemma AdoptedFromBody(ns0: ODict<Value>, annotations: ODict<TypeTerm>, mute: bool, state: Store, table: Dict<Descriptor>)
    requires WellFormedNamespace(ns0) && annotations.Valid()
    ensures var o1 := AnnotatedPhase(ns0, annotations, mute, state, table);
      Keep(o1.ns.keys, AdoptableIn(o1)) == Keep(ns0.keys, UnannotatedDefaultIn(ns0, annotations))
  {
    var o1 := AnnotatedPhase(ns0, annotations, mute, state, table);
    var missing := Keep(annotations.keys, MissingFrom(ns0.items));
    var added := InstalledNames(ns0) + missing;
    AnnotatedPhaseKeys(ns0, annotations, mute, state, table);
    assert o1.ns.keys == ns0.keys + added;
    var u := UnannotatedDefaultIn(ns0, annotations);
    KeepMembers(annotations.keys, MissingFrom(ns0.items));
    forall x | x in added ensures !u(x) {
      if x in missing {
        assert x in annotations.keys;
      }
    }
    KeepDropTail(ns0.keys, added, u);
    AdoptableMeans(ns0, annotations, mute, state, table);
    KeepCongruent(o1.ns.keys, AdoptableIn(o1), u);
  }

  lemma AdoptableMeans(ns0: ODict<Value>, annotations: ODict<TypeTerm>, mute: bool, state: Store, table: Dict<Descriptor>)
    requires WellFormedNamespace(ns0) && annotations.Valid()
    ensures var o1 := AnnotatedPhase(ns0, annotations, mute, state, table);
      forall x :: AdoptableIn(o1)(x) == UnannotatedDefaultIn(ns0, annotations)(x)
  {
    var o1 := AnnotatedPhase(ns0, annotations, mute, state, table);
    forall x ensures AdoptableIn(o1)(x) == UnannotatedDefaultIn(ns0, annotations)(x) {
      AnnotatedPhaseAt(ns0, annotations, mute, state, table, x);
      if IsPublic(x) && x !in annotations.items && x in ns0.items {
        assert x in o1.ns.items && x !in o1.registry.items && o1.ns.items[x] == ns0.items[x];
      }
    }
  }

  /** Namespace order: the class body's own names, then `__state__` and `__session_descriptors__` if new, then the annotated names that had no value. */
  lemma BindNamespaceOrder(ns0: ODict<Value>, annotations: ODict<TypeTerm>, mute: bool, state: Store, table: Dict<Descriptor>)
    requires WellFormedNamespace(ns0) && annotations.Valid()
    ensures Bind(ns0, annotations, mute, state, table).ns.keys
         == ns0.keys + InstalledNames(ns0) + Keep(annotations.keys, MissingFrom(ns0.items))
  {
    AnnotatedPhaseKeys(ns0, annotations, mute, state, table);
  }

  lemma AnnotatedPhaseKeys(ns0: ODict<Value>, annotations: ODict<TypeTerm>, mute: bool, state: Store, table: Dict<Descriptor>)
    requires WellFormedNamespace(ns0) && annotations.Valid()
    ensures AnnotatedPhase(ns0, annotations, mute, state, table).ns.keys
         == ns0.keys + InstalledNames(ns0) + Keep(annotations.keys, MissingFrom(ns0.items))
  {
    var m := ns0.items[ModuleAttr].s;
    var q := ns0.items[QualnameAttr].s;
    var s0 := Start(ns0, state, table);
    var n := |annotations.keys|;
    StartShape(ns0, state, table);
    AnnotatedLoopOrder(s0, annotations, n, m, q, state, mute);
    assert annotations.keys[..n] == annotations.keys;
    forall x ensures MissingFrom(s0.ns.items)(x) == MissingFrom(ns0.items)(x) {
    }
    KeepCongruent(annotations.keys, MissingFrom(s0.ns.items), MissingFrom(ns0.items));
  }

  /** The warnings of the whole engine (lines 61-77): which attributes get one, of which kind, at most one each. */
  lemma BindWarnings(ns0: ODict<Value>, annotations: ODict<TypeTerm>, mute: bool, state: Store, table: Dict<Descriptor>)
    requires WellFormedNamespace(ns0) && annotations.Valid()
    ensures var ws := Bind(ns0, annotations, mute, state, table).warnings;
      && (forall w :: w in ws <==>
            && w.attr in annotations.items && IsPublic(w.attr)
            && WarningFor(w.attr in ns0.items, IsTypeStateVar(annotations.items[w.attr]), mute) == Some(w.kind))
      && OnePerAttribute(ws)
  {
    var m := ns0.items[ModuleAttr].s;
    var q := ns0.items[QualnameAttr].s;
    var s0 := Start(ns0, state, table);
    var n := |annotations.keys|;
    StartShape(ns0, state, table);
    AnnotatedLoopWarnings(s0, annotations, n, m, q, state, mute);
    assert annotations.keys[..n] == annotations.keys;
  }
}
