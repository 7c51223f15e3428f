/**
 * The annotation registries built once from the index: qualifiers and
 * interceptor bindings by name, and stereotypes folded from their class
 * annotations.
 */
module Registries {
  import opened Wrappers
  import opened Jandex
  import opened Infos
  import DotNames

  // ---------------------------------------------------------------------
  // Qualifier and interceptor-binding registries
  // ---------------------------------------------------------------------

  /** Among the first `upTo` targets, `c` is the last class named `n`. */
  ghost predicate LastNamed(ts: seq<Target>, n: Name, upTo: nat, c: ClassInfo)
    requires upTo <= |ts|
  {
    exists k :: 0 <= k < upTo && ts[k] == ClassTarget(c) && c.name == n &&
      forall j | k < j < upTo :: ts[j].ClassTarget? ==> ts[j].cls.name != n
  }

  /**
   * `m` maps the name of every target class, and nothing else, to the last
   * target class of that name (a later put replaces an earlier one).
   */
  ghost predicate RegistryOf(ts: seq<Target>, m: map<Name, ClassInfo>)
    requires ClassTargetsOnly(ts)
  {
    && (forall n :: n in m <==> exists k :: 0 <= k < |ts| && ts[k].cls.name == n)
    && (forall n | n in m :: LastNamed(ts, n, |ts|, m[n]))
  }

  /** Puts every target class into a map under its own name. */
  method ClassesByName(ts: seq<Target>) returns (m: map<Name, ClassInfo>)
    requires ClassTargetsOnly(ts)
    ensures RegistryOf(ts, m)
  {
    m := map[];
    for i := 0 to |ts|
      invariant forall n :: n in m <==> exists k :: 0 <= k < i && ts[k].cls.name == n
      invariant forall n | n in m :: LastNamed(ts, n, i, m[n])
    {
      var c := ts[i].cls;
      forall n | n in m && n != c.name
        ensures LastNamed(ts, n, i + 1, m[n])
      {
        var k :| 0 <= k < i && ts[k] == ClassTarget(m[n]) && m[n].name == n &&
          forall j | k < j < i :: ts[j].ClassTarget? ==> ts[j].cls.name != n;
        assert forall j | k < j < i + 1 :: ts[j].ClassTarget? ==> ts[j].cls.name != n;
      }
      m := m[c.name := c];
      assert LastNamed(ts, c.name, i + 1, c) by {
        assert ts[i] == ClassTarget(c);
      }
    }
  }

  /** The qualifier registry: every class annotated with Qualifier, by name. */
  method FindQualifiers(index: Index) returns (qualifiers: map<Name, ClassInfo>)
    requires ClassTargetsOnly(index.GetAnnotations(DotNames.QUALIFIER))
    ensures RegistryOf(index.GetAnnotations(DotNames.QUALIFIER), qualifiers)
  {
    qualifiers := ClassesByName(index.GetAnnotations(DotNames.QUALIFIER));
  }

  /** The interceptor-binding registry: every class annotated with InterceptorBinding, by name. */
  method FindInterceptorBindings(index: Index) returns (bindings: map<Name, ClassInfo>)
    requires ClassTargetsOnly(index.GetAnnotations(DotNames.INTERCEPTOR_BINDING))
    ensures RegistryOf(index.GetAnnotations(DotNames.INTERCEPTOR_BINDING), bindings)
  {
    bindings := ClassesByName(index.GetAnnotations(DotNames.INTERCEPTOR_BINDING));
  }

  // ---------------------------------------------------------------------
  // Stereotypes
  // ---------------------------------------------------------------------

  /** A class annotation that the stereotype fold records as an interceptor binding. */
  predicate IsBinding(a: Annotation, bindings: map<Name, ClassInfo>) {
    a.name != DotNames.ALTERNATIVE && a.name in bindings
  }

  /** A class annotation that the fold may take its scope from. */
  predicate IsScopeCandidate(a: Annotation, bindings: map<Name, ClassInfo>) {
    a.name != DotNames.ALTERNATIVE && a.name !in bindings
  }

  /** A scope candidate whose name is a known scope. */
  predicate ResolvesScope(a: Annotation, bindings: map<Name, ClassInfo>, scopeFrom: Name -> Option<ScopeInfo>) {
    IsScopeCandidate(a, bindings) && scopeFrom(a.name).Some?
  }

  predicate HasAlternative(anns: seq<Annotation>) {
    exists a :: a in anns && a.name == DotNames.ALTERNATIVE
  }

  /** The bindings collected by the fold over `anns`. */
  function BindingsOf(anns: seq<Annotation>, bindings: map<Name, ClassInfo>): seq<Annotation> {
    if anns == [] then []
    else
      var last := anns[|anns| - 1];
      BindingsOf(anns[..|anns| - 1], bindings) + (if IsBinding(last, bindings) then [last] else [])
  }

  /** The scope left by the fold over `anns`: set from a candidate only while still unset. */
  function ScopeOf(anns: seq<Annotation>, bindings: map<Name, ClassInfo>, scopeFrom: Name -> Option<ScopeInfo>): Option<ScopeInfo> {
    if anns == [] then None
    else
      var last := anns[|anns| - 1];
      var before := ScopeOf(anns[..|anns| - 1], bindings, scopeFrom);
      if before.Some? then before
      else if IsScopeCandidate(last, bindings) then scopeFrom(last.name)
      else None
  }

  /** The stereotype built from the class annotations of `cls`. */
  function Stereotype(cls: ClassInfo, bindings: map<Name, ClassInfo>, scopeFrom: Name -> Option<ScopeInfo>): StereotypeInfo {
    var anns := cls.classAnnotations;
    StereotypeInfo(ScopeOf(anns, bindings, scopeFrom), BindingsOf(anns, bindings), HasAlternative(anns), cls)
  }

  /**
   * `m` holds a stereotype for exactly the Stereotype-annotated classes the index can
   * resolve by name, each built from the resolved class.
   */
  ghost predicate StereotypeRegistryOf(index: Index, bindings: map<Name, ClassInfo>,
                                       scopeFrom: Name -> Option<ScopeInfo>, m: map<Name, StereotypeInfo>)
    requires ClassTargetsOnly(index.GetAnnotations(DotNames.STEREOTYPE))
  {
    var ts := index.GetAnnotations(DotNames.STEREOTYPE);
    && (forall n :: n in m <==> n in index.classes && exists k :: 0 <= k < |ts| && ts[k].cls.name == n)
    && (forall n | n in m :: m[n] == Stereotype(index.classes[n], bindings, scopeFrom))
  }

  /** Folds the class annotations of one stereotype class. */
  method ClassifyStereotype(cls: ClassInfo, bindings: map<Name, ClassInfo>, scopeFrom: Name -> Option<ScopeInfo>)
    returns (info: StereotypeInfo)
    ensures info == Stereotype(cls, bindings, scopeFrom)
  {
    var anns := cls.classAnnotations;
    var isAlternative := false;
    var scope: Option<ScopeInfo> := None;
    var found: seq<Annotation> := [];
    for k := 0 to |anns|
      invariant isAlternative <==> exists a :: a in anns[..k] && a.name == DotNames.ALTERNATIVE
      invariant scope == ScopeOf(anns[..k], bindings, scopeFrom)
      invariant found == BindingsOf(anns[..k], bindings)
    {
      var a := anns[k];
      assert anns[..k + 1][..k] == anns[..k];
      assert anns[..k + 1] == anns[..k] + [a];
      if a.name == DotNames.ALTERNATIVE {
        isAlternative := true;
      } else if a.name in bindings {
        found := found + [a];
      } else if scope.None? {
        scope := scopeFrom(a.name);
      }
    }
    assert anns[..|anns|] == anns;
    info := StereotypeInfo(scope, found, isAlternative, cls);
  }

  /** The stereotype registry: every resolvable Stereotype-annotated class, folded. */
  method FindStereotypes(index: Index, bindings: map<Name, ClassInfo>, scopeFrom: Name -> Option<ScopeInfo>)
    returns (stereotypes: map<Name, StereotypeInfo>)
    requires ClassTargetsOnly(index.GetAnnotations(DotNames.STEREOTYPE))
    ensures StereotypeRegistryOf(index, bindings, scopeFrom, stereotypes)
  {
    var ts := index.GetAnnotations(DotNames.STEREOTYPE);
    stereotypes := map[];
    for i := 0 to |ts|
      invariant forall n :: n in stereotypes <==> n in index.classes && exists k :: 0 <= k < i && ts[k].cls.name == n
      invariant forall n | n in stereotypes :: stereotypes[n] == Stereotype(index.classes[n], bindings, scopeFrom)
    {
      var name := ts[i].cls.name;
      var stereotypeClass := index.GetClassByName(name);
      if stereotypeClass.Some? {
        var info := ClassifyStereotype(stereotypeClass.value, bindings, scopeFrom);
        stereotypes := stereotypes[name := info];
      }
    }
  }

  // ---------------------------------------------------------------------
  // What the stereotype fold promises
  // ---------------------------------------------------------------------

  /** The bindings are exactly the class annotations registered as interceptor bindings. */
  lemma {:induction false} BindingsOfExact(anns: seq<Annotation>, bindings: map<Name, ClassInfo>)
    ensures forall a :: a in BindingsOf(anns, bindings) <==> a in anns && IsBinding(a, bindings)
  {
    if anns != [] {
      var init := anns[..|anns| - 1];
      BindingsOfExact(init, bindings);
      assert anns == init + [anns[|anns| - 1]];
    }
  }

  /** The bindings keep declaration order: the fold distributes over concatenation. */
  lemma {:induction false} BindingsOfAppend(s: seq<Annotation>, t: seq<Annotation>, bindings: map<Name, ClassInfo>)
    ensures BindingsOf(s + t, bindings) == BindingsOf(s, bindings) + BindingsOf(t, bindings)
  {
    if t == [] {
      assert s + t == s;
    } else {
      var init := t[..|t| - 1];
      var last := t[|t| - 1];
      BindingsOfAppend(s, init, bindings);
      assert (s + t)[..|s + t| - 1] == s + init;
      assert (s + t)[|s + t| - 1] == last;
    }
  }

  /**
   * The scope is the lookup of the first candidate that names a known scope,
   * and it is unset exactly when no candidate does.
   */
  lemma {:induction false} ScopeOfFirstResolvable(anns: seq<Annotation>, bindings: map<Name, ClassInfo>,
                                                  scopeFrom: Name -> Option<ScopeInfo>)
    ensures ScopeOf(anns, bindings, scopeFrom).None? <==>
              forall k | 0 <= k < |anns| :: !ResolvesScope(anns[k], bindings, scopeFrom)
    ensures ScopeOf(anns, bindings, scopeFrom).Some? ==>
              exists k :: 0 <= k < |anns| && ResolvesScope(anns[k], bindings, scopeFrom) &&
                ScopeOf(anns, bindings, scopeFrom) == scopeFrom(anns[k].name) &&
                forall j | 0 <= j < k :: !ResolvesScope(anns[j], bindings, scopeFrom)
  {
    if anns != [] {
      var init := anns[..|anns| - 1];
      ScopeOfFirstResolvable(init, bindings, scopeFrom);
      assert forall k | 0 <= k < |init| :: init[k] == anns[k];
    }
  }

  /** Once the fold has set the scope, later annotations never overwrite it. */
  lemma {:induction false} ScopeNeverOverwritten(s: seq<Annotation>, t: seq<Annotation>, bindings: map<Name, ClassInfo>,
                                                 scopeFrom: Name -> Option<ScopeInfo>)
    requires ScopeOf(s, bindings, scopeFrom).Some?
    ensures ScopeOf(s + t, bindings, scopeFrom) == ScopeOf(s, bindings, scopeFrom)
  {
    if t == [] {
      assert s + t == s;
    } else {
      ScopeNeverOverwritten(s, t[..|t| - 1], bindings, scopeFrom);
      assert (s + t)[..|s + t| - 1] == s + t[..|t| - 1];
    }
  }
}
