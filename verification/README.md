# streamlit-typed-session: the session-class engine, in Dafny

`streamlit-typed-session` lets a Streamlit app declare its session state as a
class. Each field is annotated, optionally given an inline default, and the
class is built by the metaclass `SessionModelMetaclass`. The metaclass turns
every public field into a *session variable descriptor*. A descriptor is bound
to the session store under a key derived from the module, the class's
qualified name and the attribute. `SessionBase` adds a few class methods that
list and look up those descriptors and hand out the store.

This project models that core:

- **The engine** is `SessionModelMetaclass.__new__`. `Metaclass.New` is an
  imperative method. It resolves the store, calling a provider exactly once.
  It installs `__state__` and a fresh registry `__session_descriptors__` in the
  class namespace. Then it runs the source's two loops over the annotations
  and over the namespace. The namespace and the registry are Python dicts
  changed in place. They are modelled as objects of the class `Dicts.Dict`, an
  insertion-ordered dict whose `Set` is specified by the pure `ODict.Set`.
- **The specification** of the engine is `Binding.Bind`. It is built from two
  left folds, `AnnotatedLoop` and `DefaultLoop`, that follow the loops
  iteration by iteration. `New`'s postcondition says that the namespace,
  registry and warnings it leaves behind are exactly `Bind`'s.
- **What the engine guarantees** is proved about `Bind`. `BindingProofs` holds
  the whole-engine theorems. `BindRegistry` and `BindNamespace` say which
  names get which descriptor. `BindRegistryOrder` and `BindNamespaceOrder`
  give the order of each dict. `BindWarnings` says which warnings are raised.
  `Guarantees` derives the individual promises from them: private names are
  never registered, defaults are exactly the inline values, keys are distinct,
  there are two warning rules, muting only silences, and ignored kinds are left
  untouched.
- **The facade** is `SessionBase.get_descriptors`, `get_descriptor` and
  `get_state`. It consists of pure functions over the built class
  (`SessionTypes.SessionClass`).
- **The rules** live in `Rules`: the private-name test, the key format, the
  "may be unset" test on a resolved annotation (`_is_type_state_var`), the
  ignored value kinds (`_IGNORED_TYPES`) and the two warning rules.
- **A defect at line 60 of `_metaclass.py`** is modelled as written in
  `Findings` and exhibited on a concrete class in `Scenarios`. The rest of the
  model uses the intended behaviour.

Resolved annotations are `SessionTypes.TypeTerm` values. The marker type
`UnsetT` stands for `UnsetType`, which `_metaclass.py:16` imports.
`mytypes.py` defines the marker class `Unset` (lines 21-22) and no
`UnsetType`. The model reads `UnsetType` as the type of that marker. Values
found in a class body are `SessionTypes.Value`. Its first seven kinds are the
ignored ones. Python 3.12's extra `typing.TypeAliasType` (lines 30-31) is
folded into the single `TypeAlias` kind.

## Model

| member | source | states |
|---|---|---|
| Metaclass.New | src/streamlit_typed_session/_metaclass.py:35-103 | a store is used as given and a provider is called exactly once (its product becomes the store); the registry is a fresh object; the namespace, registry and warnings left behind are exactly `Binding.Bind` of the original namespace |
| Metaclass.BindAnnotatedFields | src/streamlit_typed_session/_metaclass.py:54-85 | the first loop, run over every annotation in order, leaves the namespace, registry and warnings of the fold `AnnotatedLoop`; `__module__` and `__qualname__` are untouched |
| Metaclass.BindAnnotatedField | src/streamlit_typed_session/_metaclass.py:57-85 | one public annotated attribute: the namespace and registry both get the descriptor built from the inline value if there is one, and the warning the rules call for is appended (one step of `AnnotatedLoop`) |
| Metaclass.BindUnannotatedDefaults | src/streamlit_typed_session/_metaclass.py:87-101 | the second loop, over the namespace's keys in namespace order, leaves the namespace and registry of the fold `DefaultLoop` |
| SessionTypes.StoreProvider.Call | src/streamlit_typed_session/_metaclass.py:44-45 | calling the provider returns its store and counts one more call |
| Dicts.ODict.Set | src/streamlit_typed_session/_metaclass.py:83-84 | dict assignment: the entry is replaced, an existing key keeps its place, a new key is appended at the end, and well-formedness is kept |
| Dicts.Dict.Set | src/streamlit_typed_session/_metaclass.py:100-101 | the in-place dict assignment leaves exactly the contents `ODict.Set` describes |
| Dicts.Values | src/streamlit_typed_session/session_base.py:30 | `list(d.values())`: one value per key, the i-th being the value of the i-th key |
| Dicts.ValidSize | src/streamlit_typed_session/session_base.py:30 | a well-formed dict has as many entries as keys, so the listed values number exactly the registry's size |
| Binding.Start | src/streamlit_typed_session/_metaclass.py:47-50 | the namespace gains `__state__` (the store) and `__session_descriptors__` (the registry), the registry is empty and there are no warnings yet |
| Binding.AnnotatedPhase | src/streamlit_typed_session/_metaclass.py:47-85 | after the first loop the namespace and registry are both well-formed dicts |
| Binding.DefaultStep | src/streamlit_typed_session/_metaclass.py:88-101 | one iteration of the second loop only reassigns an existing key: the namespace's keys and their order are unchanged, and no warning is added |
| Binding.DefaultLoop | src/streamlit_typed_session/_metaclass.py:87-101 | the second loop never adds or reorders namespace keys and never warns, so iterating `namespace.items()` while assigning is safe |
| Binding.AnnotatedLoopValid | src/streamlit_typed_session/_metaclass.py:54-85 | the first loop keeps both dicts well formed |
| BindingProofs.StartShape | src/streamlit_typed_session/_metaclass.py:47-50 | installing the two engine attributes appends them (when new) after the class body's names and leaves every public entry as it was |
| BindingProofs.AnnotatedLoopEntries | src/streamlit_typed_session/_metaclass.py:54-85 | after n iterations, the registered names are exactly the public names among the first n annotations; each holds the descriptor with key `FormatKey(module, qualname, a)` whose default is the inline value if there was one; the namespace holds that descriptor under the same name and is otherwise unchanged |
| BindingProofs.AnnotatedLoopOrder | src/streamlit_typed_session/_metaclass.py:54-85 | the registry's order is the public annotations in annotation order; the namespace only gains, at its end, the public annotated names that had no inline value |
| BindingProofs.AnnotatedLoopWarnings | src/streamlit_typed_session/_metaclass.py:61-77 | a warning of a kind is issued for an attribute exactly when it is a public annotation and the rules give that kind for it; at most one warning per attribute |
| BindingProofs.DefaultLoopEntries | src/streamlit_typed_session/_metaclass.py:87-101 | the second loop registers, besides what was registered, exactly the public, unregistered, non-ignored entries it has visited, each with its value as default, and puts that descriptor in the namespace; nothing else changes |
| BindingProofs.DefaultLoopOrder | src/streamlit_typed_session/_metaclass.py:87-101 | the registry grows by the adopted names in namespace order |
| BindingProofs.DefaultLoopValid | src/streamlit_typed_session/_metaclass.py:87-101 | the second loop keeps the registry well formed |
| BindingProofs.AnnotatedPhaseFacts | src/streamlit_typed_session/_metaclass.py:47-85 | after the first loop: registered iff public and annotated, with the annotated descriptor; the namespace holds the descriptors, the store and the registry, and otherwise the class body's values |
| BindingProofs.BindRegistry | src/streamlit_typed_session/_metaclass.py:54-101 | an attribute is registered exactly when `Expected` gives it a descriptor, and the registered descriptor is that one: public annotations always, with the inline value as default if any; public unannotated values unless of an ignored kind, with the value as default; never a private name |
| BindingProofs.BindNamespace | src/streamlit_typed_session/_metaclass.py:47-101 | the final namespace holds the class body's names, the registered names, `__state__` and `__session_descriptors__` and nothing else; a registered name holds its descriptor, `__state__` the store, `__session_descriptors__` the registry, every other name its original value |
| BindingProofs.BindValid | src/streamlit_typed_session/_metaclass.py:47-101 | the final namespace and registry are both well-formed dicts |
| BindingProofs.BindRegistryOrder | src/streamlit_typed_session/_metaclass.py:54-101 | registry order is the public annotations in annotation order, followed by the adopted unannotated values in class-body order |
| BindingProofs.AdoptedFromBody | src/streamlit_typed_session/_metaclass.py:87-101 | the names the second loop adopts are exactly the class body's own public, unannotated, non-ignored names, in class-body order (nothing added by the engine is adopted) |
| BindingProofs.AdoptableMeans | src/streamlit_typed_session/_metaclass.py:87-97 | after the first loop, the second loop's three skip tests (private, already registered, ignored kind) select exactly the public unannotated non-ignored values of the class body |
| BindingProofs.BindNamespaceOrder | src/streamlit_typed_session/_metaclass.py:47-101 | namespace order is the class body's names, then `__state__` and `__session_descriptors__` if they were new, then the annotated names that had no value |
| BindingProofs.AnnotatedPhaseKeys | src/streamlit_typed_session/_metaclass.py:47-85 | the namespace order after the first loop, which the second loop keeps |
| BindingProofs.BindWarnings | src/streamlit_typed_session/_metaclass.py:61-77 | a warning is issued for an attribute exactly when it is a public annotation and the rules call for one, of the kind they give; at most one per attribute |
| Guarantees.OnlyPublicBodyNamesRegistered | src/streamlit_typed_session/_metaclass.py:55-56 | every registered name is public, and is annotated or assigned in the class body |
| Guarantees.AnnotatedDefaults | src/streamlit_typed_session/_metaclass.py:79-85 | every public annotation is registered; its descriptor has a default exactly when the class body gives a value, and then the default is that value |
| Guarantees.UnannotatedDefaults | src/streamlit_typed_session/_metaclass.py:87-101 | a public unannotated value is registered, with itself as default, exactly when it is not of an ignored kind; an ignored one stays in the namespace unchanged |
| Guarantees.RegisteredKeys | src/streamlit_typed_session/_metaclass.py:57 | every descriptor is bound to the resolved store under `__<module>.<qualname>.<attribute>__` |
| Guarantees.DistinctKeys | src/streamlit_typed_session/_metaclass.py:57 | no two attributes of one class share a store key |
| Guarantees.WarningRules | src/streamlit_typed_session/_metaclass.py:61-77 | "redundant Unset" exactly for a public annotation with a value whose type admits `Unset`, "missing Unset" exactly for one without a value whose type does not, both only when not muted; at most one per attribute |
| Guarantees.SilentWhenNoRuleFires | src/streamlit_typed_session/_metaclass.py:61-77 | when no public annotation meets either rule, no warning is issued |
| Guarantees.MutedMeansSilent | src/streamlit_typed_session/_metaclass.py:61-77 | with `mute_warnings=True` there are no warnings |
| Guarantees.AnnotatedLoopMutedSilent | src/streamlit_typed_session/_metaclass.py:61-77 | a muted first loop adds no warning |
| Guarantees.MuteOnlyAffectsWarnings | src/streamlit_typed_session/_metaclass.py:61-85 | the namespace and registry are the same whether warnings are muted or not |
| Guarantees.AnnotatedLoopMute | src/streamlit_typed_session/_metaclass.py:54-85 | the first loop's namespace and registry do not depend on muting |
| Guarantees.DefaultLoopIgnoresWarnings | src/streamlit_typed_session/_metaclass.py:87-101 | the second loop's namespace and registry do not depend on the warnings issued before it |
| Guarantees.DescriptorsInBindingOrder | src/streamlit_typed_session/session_base.py:27-30 | for a built class, `get_descriptors` lists the public annotations' descriptors in annotation order, then the adopted defaults in class-body order, each the descriptor the engine gave it |
| Guarantees.LookupAfterBinding | src/streamlit_typed_session/session_base.py:32-38 | for a built class, `get_descriptor(a)` returns the descriptor the engine gave `a`, or `AttributeError` exactly when it gave none |
| SessionBase.GetDescriptors | src/streamlit_typed_session/session_base.py:26-30 | one descriptor per registered name, in registry order, so as many as the registry holds, and every registered descriptor is listed |
| SessionBase.GetDescriptor | src/streamlit_typed_session/session_base.py:32-38 | succeeds exactly when the name is registered and then returns its descriptor; otherwise fails with "attribute is not a session variable" for that name |
| SessionBase.GetState | src/streamlit_typed_session/session_base.py:56-63 | the result wraps the class's own store object; it is the read-only view exactly when `read_only` is true, which is the default |
| SessionBase.Assign | src/streamlit_typed_session/session_base.py:60-63 | writing through the live store changes that entry; writing through the read-only view fails with `TypeError` and leaves the store unchanged |
| SessionBase.ViewsShowTheStore | src/streamlit_typed_session/session_base.py:56-63 | the default view is read-only, and both views show exactly the store's current entries |
| Rules.WarningForMeaning | src/streamlit_typed_session/_metaclass.py:61-77 | the rules as two independent conditions: "redundant Unset" iff a value and `Unset` allowed and not muted; "missing Unset" iff neither and not muted; nothing when muted |
| Rules.TypeStateVarMeaning | src/streamlit_typed_session/_metaclass.py:106-111 | an annotation may be unset exactly when it is a union (`typing.Union` or `X \| Y`) one of whose members is the `Unset` type; a bare `Unset`, a plain or a non-union generic type never is |
| Rules.KeyDeterminesAttribute | src/streamlit_typed_session/_metaclass.py:57 | within one class, the key determines the attribute |
| Rules.KeysCollideAcrossModules | src/streamlit_typed_session/_metaclass.py:57 | across classes the key is not unique: `pkg.a`/`B` and `pkg`/`a.B` give the same key for `x` |
| Rules.KeyDeterminesTriple | src/streamlit_typed_session/_metaclass.py:57 | when module and qualified names contain no dot, the key determines module, class and attribute |
| Findings.AnnotatedLoopAsWritten | src/streamlit_typed_session/_metaclass.py:54-60 | as written, the first loop either fails or leaves everything as it was, since it never gets past line 60 for a public name |
| Findings.AnnotatedLoopAsWrittenFails | src/streamlit_typed_session/_metaclass.py:55-60 | as written, the first n iterations fail, with `AttributeError` for `_is_type_state_var`, exactly when one of the first n annotations is public |
| Findings.AsWrittenFailsOnPublicAnnotation | src/streamlit_typed_session/_metaclass.py:60 | as written, building a class fails with `AttributeError` exactly when it annotates a public attribute, and otherwise gives the intended result |
| Findings.NoPublicAnnotationBindsNothing | src/streamlit_typed_session/_metaclass.py:54-56 | a class whose annotations are all private leaves the first loop with nothing changed |
| Scenarios.ProfileOrder | src/streamlit_typed_session/_metaclass.py:54-85 | `Profile` (`name: str = "anon"`, `age: int \| Unset`) gets two descriptors, `name` then `age` |
| Scenarios.ProfileDefaults | src/streamlit_typed_session/_metaclass.py:57-85 | `name` defaults to `"anon"` under `__app.Profile.name__`; `age` has no default and key `__app.Profile.age__` |
| Scenarios.ProfileSilent | src/streamlit_typed_session/_metaclass.py:61-77 | `Profile` draws no warning |
| Scenarios.ProfileFailsAsWritten | src/streamlit_typed_session/_metaclass.py:60 | as written, `Profile` cannot be built: `AttributeError` for `_is_type_state_var` |
| Scenarios.CounterWarns | src/streamlit_typed_session/_metaclass.py:70-77 | `count: int` with no value draws exactly one warning, "missing Unset" |
| Scenarios.CounterRegisters | src/streamlit_typed_session/_metaclass.py:79-85 | `count` is the only descriptor, required, under `__app.Counter.count__` |
| Scenarios.SessionBaseRegistersNothing | src/streamlit_typed_session/session_base.py:19-63 | `SessionBase`'s own body (private annotations, an `__init__` function, class methods) registers no session variable and draws no warning |

## Left out

- Forward-reference resolution (`_parse_annotation`, `_metaclass.py:114-151`): annotations enter the model already resolved, as `TypeTerm`s, and the annotations dict is passed beside the namespace instead of read from `__annotations__`.
- `super().__new__` (line 103), class creation itself, and the descriptors' read and write behaviour: `descriptors.py` is not part of this model. A built class is seen through `SessionClass`, a snapshot of its registry and store.
- The warning texts and `stacklevel`: warnings are recorded as (attribute, kind).
- The default provider `streamlit_session_provider` and Streamlit itself: a provider is a `StoreProvider` object that hands back a given store. Whether `state` is callable is carried by `StateSource` rather than decided by `isinstance(state, Callable)`.
- Python-version branches of `_IGNORED_TYPES` (lines 30-31): both type-alias classes are the one `TypeAlias` kind.
- `Metaclass.New`: requires `__module__` and `__qualname__` to be strings in the namespace, as every class statement provides. A namespace without them, where the source raises `KeyError` on the first public name, is not modelled.
- `SessionBase.__init__` (`session_base.py:23-24`): it takes no arguments and does nothing, so instances carry no state and there is nothing to model beyond the class.
- `get_state`'s `MappingProxyType` is modelled only by what the facade relies on: reads show the live store, item assignment is refused. Other mapping methods are not modelled.
- The import of `UnsetType` (`_metaclass.py:16`) has no definition in `mytypes.py`. The model takes it to be the marker type of `Unset`.

## Findings

| source | as written | input that shows it | evidently intended | confidence | as-written member | corrected member |
|---|---|---|---|---|---|---|
| src/streamlit_typed_session/_metaclass.py:60 | `cls._is_type_state_var(annotation)` looks the helper up on the metaclass. `_is_type_state_var` is a module-level function (line 106), not a metaclass attribute, so the lookup raises `AttributeError` | `class Profile(SessionBase): name: str = "anon"` (any class with a public annotation) | call the module-level `_is_type_state_var(annotation)` | high; not executed | Findings.AsWrittenFailsOnPublicAnnotation | Guarantees.AnnotatedDefaults |
