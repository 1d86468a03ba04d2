/**
 * The engine as written at line 60 of `_metaclass.py`: it looks the
 * union test up as `cls._is_type_state_var`, but `cls` is the metaclass
 * and `_is_type_state_var` is a module-level function (line 106), so the
 * lookup raises `AttributeError` for the first public annotation. The
 * rest of the model uses the intended behaviour, `Binding.Bind`.
 */
module Findings {
  import opened Wrappers
  import opened Dicts
  import opened SessionTypes
  import opened Rules
  import opened Binding

  const TypeStateVarLookup := "_is_type_state_var"

  /** The first loop as written: a private annotation is skipped; a public one raises at line 60. */
  function AnnotatedLoopAsWritten(o0: Outcome, annotations: ODict<TypeTerm>, n: nat): (r: Result<Outcome, Error>)
    requires annotations.Valid() && n <= |annotations.keys|
    ensures r.Ok? ==> r.value == o0
  {
    if n == 0 then Ok(o0)
    else
      match AnnotatedLoopAsWritten(o0, annotations, n - 1)
      case Err(e) => Err(e)
      case Ok(o) =>
        if IsPrivate(annotations.keys[n - 1]) then Ok(o)
        else Err(MissingMetaclassAttribute(TypeStateVarLookup))
  }

  /** Lines 47-101 as written. */
  function BindAsWritten(ns0: ODict<Value>, annotations: ODict<TypeTerm>, mute: bool, state: Store, table: Dict<Descriptor>): Result<Outcome, Error>
    requires WellFormedNamespace(ns0) && annotations.Valid()
  {
    var m := ns0.items[ModuleAttr].s;
    var q := ns0.items[QualnameAttr].s;
    var o0 := Start(ns0, state, table);
    match AnnotatedLoopAsWritten(o0, annotations, |annotations.keys|)
    case Err(e) => Err(e)
    case Ok(o1) => Ok(DefaultLoop(o1, |o1.ns.keys|, m, q, state))
  }

  lemma {:induction false} AnnotatedLoopAsWrittenFails(o0: Outcome, annotations: ODict<TypeTerm>, n: nat)
    requires annotations.Valid() && n <= |annotations.keys|
    ensures AnnotatedLoopAsWritten(o0, annotations, n).Err? <==> exists i :: 0 <= i < n && IsPublic(annotations.keys[i])
    ensures AnnotatedLoopAsWritten(o0, annotations, n).Err? ==>
      AnnotatedLoopAsWritten(o0, annotations, n).error == MissingMetaclassAttribute(TypeStateVarLookup)
  {
    if n > 0 {
      AnnotatedLoopAsWrittenFails(o0, annotations, n - 1);
    }
  }

  /**
   * As written, building a class fails with `AttributeError` exactly when
   * it annotates a public attribute; otherwise the result is the intended one.
   */
  lemma AsWrittenFailsOnPublicAnnotation(ns0: ODict<Value>, annotations: ODict<TypeTerm>, mute: bool, state: Store, table: Dict<Descriptor>)
    requires WellFormedNamespace(ns0) && annotations.Valid()
    ensures var r := BindAsWritten(ns0, annotations, mute, state, table);
      && (r.Err? <==> exists a :: a in annotations.items && IsPublic(a))
      && (r.Err? ==> r.error == MissingMetaclassAttribute(TypeStateVarLookup))
      && (r.Ok? ==> r.value == Bind(ns0, annotations, mute, state, table))
  {
    var n := |annotations.keys|;
    var m := ns0.items[ModuleAttr].s;
    var q := ns0.items[QualnameAttr].s;
    var o0 := Start(ns0, state, table);
    AnnotatedLoopAsWrittenFails(o0, annotations, n);
    if exists a :: a in annotations.items && IsPublic(a) {
      var a :| a in annotations.items && IsPublic(a);
      var i :| 0 <= i < n && annotations.keys[i] == a;
    } else {
      NoPublicAnnotationBindsNothing(o0, annotations, n, m, q, state, mute);
    }
  }

  lemma {:induction false} NoPublicAnnotationBindsNothing(o0: Outcome, annotations: ODict<TypeTerm>, n: nat, m: string, q: string, state: Store, mute: bool)
    requires annotations.Valid() && n <= |annotations.keys|
    requires forall a :: a in annotations.items ==> IsPrivate(a)
    ensures AnnotatedLoop(o0, annotations, n, m, q, state, mute) == o0
  {
    if n > 0 {
      assert annotations.keys[n - 1] in annotations.items;
      NoPublicAnnotationBindsNothing(o0, annotations, n - 1, m, q, state, mute);
    }
  }
}
