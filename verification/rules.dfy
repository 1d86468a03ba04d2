/**
 * The per-attribute decisions of the binding engine: which names are
 * private, how a session key is spelled, when an annotation admits
 * `Unset`, which namespace values are never bound, and which warning a
 * field earns.
 */
module Rules {
  import opened Wrappers
  import opened SessionTypes

  /** `attribute.startswith("_")` */
  predicate IsPrivate(name: string) {
    |name| > 0 && name[0] == '_'
  }

  predicate IsPublic(name: string) {
    !IsPrivate(name)
  }

  /** `f"__{module}.{qualname}.{attribute}__"` */
  function FormatKey(module_: string, qualname: string, attr: string): string {
    "__" + module_ + "." + qualname + "." + attr + "__"
  }

  /**
   * `_is_type_state_var`: the annotation's origin is `typing.Union` or
   * `types.UnionType` and `UnsetType` is among its arguments.
   */
  predicate IsTypeStateVar(t: TypeTerm) {
    match t
    case Union(_, args) => UnsetT in args
    case _ => false
  }

  /** `isinstance(value, t)` for some `t` in `_IGNORED_TYPES`. */
  predicate IsIgnored(v: Value) {
    || v.Function? || v.BuiltinFunction? || v.BuiltinMethod?
    || v.Property? || v.ClassMethod? || v.StaticMethod? || v.TypeAlias?
  }

  datatype WarningKind =
    | RedundantUnset  // has a default and an `Unset` member in its annotation
    | MissingUnset    // has neither a default nor an `Unset` member

  datatype Warning = Warning(attr: string, kind: WarningKind)

  /** The `if`/`elif` choosing at most one warning for a public annotated attribute. */
  function WarningFor(hasDefault: bool, mayBeUnset: bool, mute: bool): Option<WarningKind> {
    if hasDefault && mayBeUnset && !mute then Some(RedundantUnset)
    else if !hasDefault && !mayBeUnset && !mute then Some(MissingUnset)
    else None
  }

  /** Each warning is emitted exactly under its condition, and never when muted. */
  lemma WarningForMeaning(hasDefault: bool, mayBeUnset: bool, mute: bool)
    ensures WarningFor(hasDefault, mayBeUnset, mute) == Some(RedundantUnset) <==> hasDefault && mayBeUnset && !mute
    ensures WarningFor(hasDefault, mayBeUnset, mute) == Some(MissingUnset) <==> !hasDefault && !mayBeUnset && !mute
    ensures mute ==> WarningFor(hasDefault, mayBeUnset, mute) == None
  {
  }

  /** The union test looks only at the top-level union arguments. */
  lemma TypeStateVarMeaning(t: TypeTerm)
    ensures IsTypeStateVar(t) <==> t.Union? && exists i :: 0 <= i < |t.args| && t.args[i] == UnsetT
    ensures t.UnsetT? || t.Named? || t.Generic? ==> !IsTypeStateVar(t)
  {
  }

  /** Within one class, distinct attributes get distinct keys. */
  lemma {:induction false} KeyDeterminesAttribute(module_: string, qualname: string, a: string, b: string)
    requires FormatKey(module_, qualname, a) == FormatKey(module_, qualname, b)
    ensures a == b
  {
    var k := FormatKey(module_, qualname, a);
    var n := |module_| + |qualname| + 4;
    assert k[n..|k| - 2] == a;
    assert FormatKey(module_, qualname, b)[n..|k| - 2] == b;
  }

  /**
   * Across classes the format is not collision-free: a dotted module name
   * and a dotted qualified name can spell the same key.
   */
  lemma KeysCollideAcrossModules()
    ensures FormatKey("pkg.a", "B", "x") == FormatKey("pkg", "a.B", "x")
    ensures ("pkg.a", "B") != ("pkg", "a.B")
  {
  }

  /** When neither the module nor the qualified name contains a dot, the key determines all three parts. */
  lemma {:induction false} KeyDeterminesTriple(m1: string, q1: string, a1: string, m2: string, q2: string, a2: string)
    requires '.' !in m1 && '.' !in q1 && '.' !in m2 && '.' !in q2
    requires FormatKey(m1, q1, a1) == FormatKey(m2, q2, a2)
    ensures m1 == m2 && q1 == q2 && a1 == a2
  {
    var k := FormatKey(m1, q1, a1);
    assert k == "__" + m1 + "." + q1 + "." + a1 + "__";
    assert k == "__" + m2 + "." + q2 + "." + a2 + "__";
    FirstDot(k, 2, m1, q1 + "." + a1 + "__");
    FirstDot(k, 2, m2, q2 + "." + a2 + "__");
    assert m1 == m2;
    var n := 3 + |m1|;
    FirstDot(k, n, q1, a1 + "__");
    FirstDot(k, n, q2, a2 + "__");
    assert q1 == q2;
    KeyDeterminesAttribute(m1, q1, a1, a2);
  }

  /** If `k` holds dot-free `u` at `start` followed by a dot, `u` is what runs from `start` up to the first dot. */
  lemma FirstDot(k: string, start: nat, u: string, rest: string)
    requires '.' !in u
    requires start <= |k| && k[start..] == u + "." + rest
    ensures |u| == FirstDotFrom(k, start) - start
    ensures u == k[start..FirstDotFrom(k, start)]
    decreases |k| - start
  {
    assert k[start..][|u|] == '.';
    if u == [] {
      assert k[start] == '.';
    } else {
      assert k[start] == u[0] != '.';
      assert k[start + 1..] == u[1..] + "." + rest;
      FirstDot(k, start + 1, u[1..], rest);
    }
  }

  /** Position of the first dot at or after `start` (the length of `k` if none). */
  function FirstDotFrom(k: string, start: nat): (p: nat)
    requires start <= |k|
    ensures start <= p <= |k|
    decreases |k| - start
  {
    if start == |k| || k[start] == '.' then start else FirstDotFrom(k, start + 1)
  }
}
