/**
 * What bean discovery computes, stated on values: the class candidates in
 * scan order, which of them become bean classes, how the members of a bean
 * class are sorted, and which disposers a producer selects. The imperative
 * steps of discovery that do not need the deployment's state are here too.
 */
module Discovery {
  import opened Wrappers
  import opened Jandex
  import opened Infos
  import DotNames

  // ---------------------------------------------------------------------
  // Class candidates
  // ---------------------------------------------------------------------

  /** The classes among `ts`, in order; other target kinds are skipped. */
  function ClassesOf(ts: seq<Target>): seq<ClassInfo> {
    if ts == [] then []
    else
      var last := ts[|ts| - 1];
      ClassesOf(ts[..|ts| - 1]) + (if last.ClassTarget? then [last.cls] else [])
  }

  /** The classes carrying the bean-defining annotations, annotation by annotation, in scan order. */
  function ClassCandidates(index: Index, bdas: seq<Name>): seq<ClassInfo> {
    if bdas == [] then []
    else ClassCandidates(index, bdas[..|bdas| - 1]) + ClassesOf(index.GetAnnotations(bdas[|bdas| - 1]))
  }

  /** Only class targets are considered, each of them, and no more candidates than targets. */
  lemma {:induction false} ClassesOfExact(ts: seq<Target>)
    ensures forall c :: c in ClassesOf(ts) <==> ClassTarget(c) in ts
    ensures |ClassesOf(ts)| <= |ts|
  {
    if ts != [] {
      ClassesOfExact(ts[..|ts| - 1]);
      assert ts == ts[..|ts| - 1] + [ts[|ts| - 1]];
    }
  }

  /** A candidate is a class target of one of the bean-defining annotations, and every such class is a candidate. */
  lemma {:induction false} CandidatesExact(index: Index, bdas: seq<Name>)
    ensures forall c :: c in ClassCandidates(index, bdas) <==>
              exists k :: 0 <= k < |bdas| && ClassTarget(c) in index.GetAnnotations(bdas[k])
  {
    if bdas != [] {
      var init := bdas[..|bdas| - 1];
      CandidatesExact(index, init);
      ClassesOfExact(index.GetAnnotations(bdas[|bdas| - 1]));
      forall c | c in ClassCandidates(index, bdas)
        ensures exists k :: 0 <= k < |bdas| && ClassTarget(c) in index.GetAnnotations(bdas[k])
      {
        if c in ClassCandidates(index, init) {
          var k :| 0 <= k < |init| && ClassTarget(c) in index.GetAnnotations(init[k]);
          assert bdas[k] == init[k];
        }
      }
      forall c | exists k :: 0 <= k < |bdas| && ClassTarget(c) in index.GetAnnotations(bdas[k])
        ensures c in ClassCandidates(index, bdas)
      {
        var k :| 0 <= k < |bdas| && ClassTarget(c) in index.GetAnnotations(bdas[k]);
        if k < |init| {
          assert init[k] == bdas[k];
        }
      }
    }
  }

  /** Scanning one more bean-defining annotation appends the classes it annotates. */
  lemma CandidatesStep(index: Index, bdas: seq<Name>, i: nat)
    requires i < |bdas|
    ensures ClassCandidates(index, bdas[..i + 1]) == ClassCandidates(index, bdas[..i]) + ClassesOf(index.GetAnnotations(bdas[i]))
  {
    assert bdas[..i + 1][..i] == bdas[..i];
  }

  /** Scanning one more target appends its class, if it is a class target. */
  lemma ClassesStep(ts: seq<Target>, j: nat)
    requires j < |ts|
    ensures ClassesOf(ts[..j + 1]) == ClassesOf(ts[..j]) + (if ts[j].ClassTarget? then [ts[j].cls] else [])
  {
    assert ts[..j + 1][..j] == ts[..j];
  }

  /** Interfaces, anonymous classes, local classes and non-static inner classes. */
  predicate Excluded(c: ClassInfo) {
    || c.nesting == ANONYMOUS
    || c.nesting == LOCAL
    || (c.nesting == INNER && !c.isStatic)
    || c.isInterface
  }

  /** A class that may become a bean class: no Interceptor annotation anywhere in it, and not excluded. */
  predicate Eligible(c: ClassInfo) {
    DotNames.INTERCEPTOR !in c.annotationNames && !Excluded(c)
  }

  /** The names of a set of classes. */
  function ClassNames(bcs: set<ClassInfo>): set<Name> {
    set c | c in bcs :: c.name
  }

  /** The names of the classes in a sequence. */
  function Names(cs: seq<ClassInfo>): set<Name> {
    ClassNames(set c | c in cs)
  }

  /** The bean classes the scan keeps: a class whose name was not seen before, if eligible. */
  function BeanClassesOf(cs: seq<ClassInfo>): set<ClassInfo> {
    if cs == [] then {}
    else
      var init := cs[..|cs| - 1];
      var c := cs[|cs| - 1];
      BeanClassesOf(init) + (if c.name !in Names(init) && Eligible(c) then {c} else {})
  }

  /** `cs[k]` is the first candidate with its name. */
  predicate FirstOfName(cs: seq<ClassInfo>, k: nat)
    requires k < |cs|
  {
    forall j | 0 <= j < k :: cs[j].name != cs[k].name
  }

  predicate UniqueNames(bcs: set<ClassInfo>) {
    forall c1, c2 | c1 in bcs && c2 in bcs && c1.name == c2.name :: c1 == c2
  }

  // ---------------------------------------------------------------------
  // Members of bean classes
  // ---------------------------------------------------------------------

  datatype MethodRole = ProducerRole | DisposerRole | ObserverRole | NoRole

  /** A method is a producer, else a disposer, else an observer, else nothing. */
  function RoleOf(m: MethodInfo): MethodRole {
    if m.HasAnnotation(DotNames.PRODUCES) then ProducerRole
    else if m.HasAnnotation(DotNames.DISPOSES) then DisposerRole
    else if m.HasAnnotation(DotNames.OBSERVES) then ObserverRole
    else NoRole
  }

  function MembersWithRole(c: ClassInfo, role: MethodRole): set<MethodInfo> {
    set m | m in c.methods && RoleOf(m) == role
  }

  function MethodsWithRole(bcs: set<ClassInfo>, role: MethodRole): set<MethodInfo> {
    set c, m | c in bcs && m in c.methods && RoleOf(m) == role :: m
  }

  function ProducerFieldsIn(c: ClassInfo): set<FieldInfo> {
    set f | f in c.fields && f.HasAnnotation(DotNames.PRODUCES)
  }

  function ProducerFieldsOf(bcs: set<ClassInfo>): set<FieldInfo> {
    set c, f | c in bcs && f in c.fields && f.HasAnnotation(DotNames.PRODUCES) :: f
  }

  /** The six sets the scan fills. */
  datatype ScanState = ScanState(
    processed: set<Name>,
    beanClasses: set<ClassInfo>,
    producerMethods: set<MethodInfo>,
    disposerMethods: set<MethodInfo>,
    observerMethods: set<MethodInfo>,
    producerFields: set<FieldInfo>)

  /** The sets after scanning the candidates `cs`. */
  function ScanOf(cs: seq<ClassInfo>): ScanState {
    var bcs := BeanClassesOf(cs);
    ScanState(Names(cs), bcs,
              MethodsWithRole(bcs, ProducerRole), MethodsWithRole(bcs, DisposerRole),
              MethodsWithRole(bcs, ObserverRole), ProducerFieldsOf(bcs))
  }

  /**
   * Each method of a bean class lands in at most one of the three method
   * sets, Produces taking priority over Disposes, and Disposes over Observes.
   */
  lemma ScanClassifies(cs: seq<ClassInfo>)
    ensures var st := ScanOf(cs);
      && (forall m :: m in st.producerMethods <==>
            exists c :: c in st.beanClasses && m in c.methods && m.HasAnnotation(DotNames.PRODUCES))
      && (forall m :: m in st.disposerMethods <==>
            exists c :: c in st.beanClasses && m in c.methods &&
              !m.HasAnnotation(DotNames.PRODUCES) && m.HasAnnotation(DotNames.DISPOSES))
      && (forall m :: m in st.observerMethods <==>
            exists c :: c in st.beanClasses && m in c.methods &&
              !m.HasAnnotation(DotNames.PRODUCES) && !m.HasAnnotation(DotNames.DISPOSES) && m.HasAnnotation(DotNames.OBSERVES))
      && st.producerMethods !! st.disposerMethods
      && st.producerMethods !! st.observerMethods
      && st.disposerMethods !! st.observerMethods
  {
    var st := ScanOf(cs);
    forall m ensures m in st.producerMethods <==> RoleOf(m) == ProducerRole && exists c :: c in st.beanClasses && m in c.methods {
    }
    forall m ensures m in st.disposerMethods <==> RoleOf(m) == DisposerRole && exists c :: c in st.beanClasses && m in c.methods {
    }
    forall m ensures m in st.observerMethods <==> RoleOf(m) == ObserverRole && exists c :: c in st.beanClasses && m in c.methods {
    }
  }

  lemma MethodsWithRoleAdd(bcs: set<ClassInfo>, c: ClassInfo, role: MethodRole)
    ensures MethodsWithRole(bcs + {c}, role) == MethodsWithRole(bcs, role) + MembersWithRole(c, role)
  {
  }

  lemma ProducerFieldsAdd(bcs: set<ClassInfo>, c: ClassInfo)
    ensures ProducerFieldsOf(bcs + {c}) == ProducerFieldsOf(bcs) + ProducerFieldsIn(c)
  {
  }

  lemma BeanClassesStep(seen: seq<ClassInfo>, c: ClassInfo)
    ensures Names(seen + [c]) == Names(seen) + {c.name}
    ensures BeanClassesOf(seen + [c]) ==
              BeanClassesOf(seen) + (if c.name !in Names(seen) && Eligible(c) then {c} else {})
  {
    var all := seen + [c];
    assert all[..|all| - 1] == seen;
  }

  /**
   * Scanning one more candidate records its name, and adds it with its
   * members exactly when its name is new and it is eligible.
   */
  lemma ScanStep(seen: seq<ClassInfo>, c: ClassInfo)
    ensures var st, st' := ScanOf(seen), ScanOf(seen + [c]);
      && st'.processed == st.processed + {c.name}
      && (c.name in st.processed || !Eligible(c) ==> st' == st.(processed := st'.processed))
      && (c.name !in st.processed && Eligible(c) ==>
            st' == ScanState(st'.processed, st.beanClasses + {c},
                             st.producerMethods + MembersWithRole(c, ProducerRole),
                             st.disposerMethods + MembersWithRole(c, DisposerRole),
                             st.observerMethods + MembersWithRole(c, ObserverRole),
                             st.producerFields + ProducerFieldsIn(c)))
  {
    BeanClassesStep(seen, c);
    if c.name !in Names(seen) && Eligible(c) {
      var bcs := BeanClassesOf(seen);
      MethodsWithRoleAdd(bcs, c, ProducerRole);
      MethodsWithRoleAdd(bcs, c, DisposerRole);
      MethodsWithRoleAdd(bcs, c, ObserverRole);
      ProducerFieldsAdd(bcs, c);
    }
  }

  /** Sorts the methods of one bean class into the producer, disposer and observer sets. */
  method SortMethods(c: ClassInfo, producers: set<MethodInfo>, disposers: set<MethodInfo>, observers: set<MethodInfo>)
    returns (producers': set<MethodInfo>, disposers': set<MethodInfo>, observers': set<MethodInfo>)
    ensures producers' == producers + MembersWithRole(c, ProducerRole)
    ensures disposers' == disposers + MembersWithRole(c, DisposerRole)
    ensures observers' == observers + MembersWithRole(c, ObserverRole)
  {
    producers', disposers', observers' := producers, disposers, observers;
    for k := 0 to |c.methods|
      invariant producers' == producers + set m | m in c.methods[..k] && RoleOf(m) == ProducerRole
      invariant disposers' == disposers + set m | m in c.methods[..k] && RoleOf(m) == DisposerRole
      invariant observers' == observers + set m | m in c.methods[..k] && RoleOf(m) == ObserverRole
    {
      var m := c.methods[k];
      assert c.methods[..k + 1] == c.methods[..k] + [m];
      if m.HasAnnotation(DotNames.PRODUCES) {
        producers' := producers' + {m};
      } else if m.HasAnnotation(DotNames.DISPOSES) {
        disposers' := disposers' + {m};
      } else if m.HasAnnotation(DotNames.OBSERVES) {
        observers' := observers' + {m};
      }
    }
    assert c.methods[..|c.methods|] == c.methods;
  }

  /** Adds the fields annotated with Produces of one bean class to the producer-field set. */
  method AddProducerFields(c: ClassInfo, fields: set<FieldInfo>) returns (fields': set<FieldInfo>)
    ensures fields' == fields + ProducerFieldsIn(c)
  {
    fields' := fields;
    for k := 0 to |c.fields|
      invariant fields' == fields + set f | f in c.fields[..k] && f.HasAnnotation(DotNames.PRODUCES)
    {
      var f := c.fields[k];
      assert c.fields[..k + 1] == c.fields[..k] + [f];
      if exists a :: a in f.annotations && a.name == DotNames.PRODUCES {
        fields' := fields' + {f};
      }
    }
    assert c.fields[..|c.fields|] == c.fields;
  }

  /**
   * One step of the scan: a class whose name was processed before is skipped;
   * otherwise its name is recorded first, and it becomes a bean class, with its
   * members sorted, only when eligible.
   */
  method VisitCandidate(st: ScanState, c: ClassInfo, ghost seen: seq<ClassInfo>) returns (st': ScanState)
    requires st == ScanOf(seen)
    ensures st' == ScanOf(seen + [c])
  {
    ScanStep(seen, c);
    if c.name in st.processed {
      return st;
    }
    st' := st.(processed := st.processed + {c.name});
    if !Eligible(c) {
      return;
    }
    var pm, dm, om := SortMethods(c, st.producerMethods, st.disposerMethods, st.observerMethods);
    var pf := AddProducerFields(c, st.producerFields);
    st' := ScanState(st'.processed, st.beanClasses + {c}, pm, dm, om, pf);
  }

  // ---------------------------------------------------------------------
  // What the scan promises
  // ---------------------------------------------------------------------

  /**
   * A class is a bean class exactly when it is a candidate, it is the first
   * candidate with its name, and it is eligible.
   */
  lemma {:induction false} BeanClassesCharacterized(cs: seq<ClassInfo>)
    ensures forall c :: c in BeanClassesOf(cs) <==>
              exists k :: 0 <= k < |cs| && cs[k] == c && FirstOfName(cs, k) && Eligible(c)
  {
    if cs != [] {
      var init := cs[..|cs| - 1];
      var last := cs[|cs| - 1];
      BeanClassesCharacterized(init);
      assert forall k | 0 <= k < |init| :: init[k] == cs[k];
      forall c | c in BeanClassesOf(cs)
        ensures exists k :: 0 <= k < |cs| && cs[k] == c && FirstOfName(cs, k) && Eligible(c)
      {
        if c in BeanClassesOf(init) {
          var k :| 0 <= k < |init| && init[k] == c && FirstOfName(init, k) && Eligible(c);
          assert FirstOfName(cs, k);
        } else {
          assert c == last && last.name !in Names(init);
          forall j | 0 <= j < |cs| - 1 ensures cs[j].name != last.name {
            assert init[j] in init;
          }
          assert FirstOfName(cs, |cs| - 1);
        }
      }
      forall c | exists k :: 0 <= k < |cs| && cs[k] == c && FirstOfName(cs, k) && Eligible(c)
        ensures c in BeanClassesOf(cs)
      {
        var k :| 0 <= k < |cs| && cs[k] == c && FirstOfName(cs, k) && Eligible(c);
        if k < |init| {
          assert FirstOfName(init, k);
        } else {
          assert c == last;
        }
      }
    }
  }

  /** No two bean classes share a name: each name is processed at most once. */
  lemma BeanClassNamesUnique(cs: seq<ClassInfo>)
    ensures UniqueNames(BeanClassesOf(cs))
  {
    BeanClassesCharacterized(cs);
    forall c1, c2 | c1 in BeanClassesOf(cs) && c2 in BeanClassesOf(cs) && c1.name == c2.name
      ensures c1 == c2
    {
      var k1 :| 0 <= k1 < |cs| && cs[k1] == c1 && FirstOfName(cs, k1) && Eligible(c1);
      var k2 :| 0 <= k2 < |cs| && cs[k2] == c2 && FirstOfName(cs, k2) && Eligible(c2);
      assert !(k1 < k2) && !(k2 < k1);
    }
  }

  /**
   * The name is processed before the filters run: when the first candidate
   * with a name is not eligible, no later candidate with that name becomes a
   * bean class either.
   */
  lemma {:induction false} IneligibleFirstShadows(cs: seq<ClassInfo>, k: nat)
    requires k < |cs| && FirstOfName(cs, k) && !Eligible(cs[k])
    ensures forall c | c in BeanClassesOf(cs) :: c.name != cs[k].name
  {
    var init := cs[..|cs| - 1];
    var last := cs[|cs| - 1];
    if k < |init| {
      assert FirstOfName(init, k) by {
        assert forall j | 0 <= j < k :: init[j] == cs[j];
      }
      IneligibleFirstShadows(init, k);
      assert init[k] in init;
    } else {
      BeanClassesSubset(init);
      forall c | c in BeanClassesOf(init) ensures c.name != last.name {
        var j :| 0 <= j < |init| && init[j] == c;
        assert cs[j] == c;
      }
    }
  }

  /** Every bean class is one of the candidates and is eligible. */
  lemma {:induction false} BeanClassesSubset(cs: seq<ClassInfo>)
    ensures forall c | c in BeanClassesOf(cs) :: c in cs && Eligible(c)
  {
    if cs != [] {
      BeanClassesSubset(cs[..|cs| - 1]);
      assert cs == cs[..|cs| - 1] + [cs[|cs| - 1]];
    }
  }

  // ---------------------------------------------------------------------
  // Disposer matching
  // ---------------------------------------------------------------------

  /**
   * What the disposer matcher consults: the qualifier registry, the qualifier
   * check, and the resolver's type-matching rule.
   */
  datatype MatchContext = MatchContext(
    qualifiers: map<Name, ClassInfo>,
    hasQualifier: (ClassInfo, Annotation) -> bool,
    matches: (JType, JType) -> bool)

  predicate IsProducerTarget(t: Target) {
    t.MethodTarget? || t.FieldTarget?
  }

  /**
   * The qualifiers of a producer: for a field, its annotations whose name is a
   * registered qualifier; for a method, the same but only annotations on the
   * method itself, not on its parameters.
   */
  function QualifiersOf(t: Target, qualifiers: map<Name, ClassInfo>): set<Annotation>
    requires IsProducerTarget(t)
  {
    if t.FieldTarget? then set a | a in t.fieldInfo.annotations && a.name in qualifiers
    else set a | a in t.methodInfo.annotations && a.targetKind == METHOD && a.name in qualifiers
  }

  /** The type a producer produces: the field's type or the method's return type. */
  function ProducedType(t: Target): JType
    requires IsProducerTarget(t)
  {
    if t.FieldTarget? then t.fieldInfo.fieldType else t.methodInfo.returnType
  }

  predicate QualifiersHold(quals: set<Annotation>, ctx: MatchContext) {
    forall a | a in quals :: a.name in ctx.qualifiers && ctx.hasQualifier(ctx.qualifiers[a.name], a)
  }

  /**
   * Disposer `d` is selected for producer `t` of bean `bean`: it is declared on
   * the same bean, every producer qualifier passes the qualifier check, and the
   * produced type matches the disposed parameter's type.
   */
  predicate Selects(bean: BeanInfo, t: Target, d: DisposerInfo, ctx: MatchContext)
    requires IsProducerTarget(t)
  {
    && d.declaringBean == bean
    && QualifiersHold(QualifiersOf(t, ctx.qualifiers), ctx)
    && ctx.matches(ProducedType(t), d.disposedType)
  }

  /** The disposers selected for `t`, in list order. */
  function SelectedDisposers(ds: seq<DisposerInfo>, bean: BeanInfo, t: Target, ctx: MatchContext): seq<DisposerInfo>
    requires IsProducerTarget(t)
  {
    if ds == [] then []
    else
      var last := ds[|ds| - 1];
      SelectedDisposers(ds[..|ds| - 1], bean, t, ctx) + (if Selects(bean, t, last, ctx) then [last] else [])
  }

  /** The selected disposers are exactly the disposers of the list that `t` selects. */
  lemma {:induction false} SelectedDisposersExact(ds: seq<DisposerInfo>, bean: BeanInfo, t: Target, ctx: MatchContext)
    requires IsProducerTarget(t)
    ensures forall d :: d in SelectedDisposers(ds, bean, t, ctx) <==> d in ds && Selects(bean, t, d, ctx)
  {
    if ds != [] {
      SelectedDisposersExact(ds[..|ds| - 1], bean, t, ctx);
      assert ds == ds[..|ds| - 1] + [ds[|ds| - 1]];
    }
  }

  lemma {:induction false} SelectedDisposersDistinct(ds: seq<DisposerInfo>, bean: BeanInfo, t: Target, ctx: MatchContext)
    requires IsProducerTarget(t) && Distinct(ds)
    ensures Distinct(SelectedDisposers(ds, bean, t, ctx))
  {
    if ds != [] {
      var init := ds[..|ds| - 1];
      assert Distinct(init);
      SelectedDisposersDistinct(init, bean, t, ctx);
      SelectedDisposersExact(init, bean, t, ctx);
      assert ds[|ds| - 1] !in init;
    }
  }

  /**
   * Over a list without repetitions, more than one disposer is selected
   * exactly when two different disposers are, and a single selected disposer
   * is the only one selected.
   */
  lemma SelectionCount(ds: seq<DisposerInfo>, bean: BeanInfo, t: Target, ctx: MatchContext)
    requires IsProducerTarget(t) && Distinct(ds)
    ensures |SelectedDisposers(ds, bean, t, ctx)| > 1 <==>
              exists d1, d2 :: d1 in ds && d2 in ds && d1 != d2 && Selects(bean, t, d1, ctx) && Selects(bean, t, d2, ctx)
    ensures |SelectedDisposers(ds, bean, t, ctx)| == 1 ==>
              forall d | d in ds && Selects(bean, t, d, ctx) :: d == SelectedDisposers(ds, bean, t, ctx)[0]
    ensures |SelectedDisposers(ds, bean, t, ctx)| == 0 ==>
              forall d | d in ds :: !Selects(bean, t, d, ctx)
  {
    var sel := SelectedDisposers(ds, bean, t, ctx);
    SelectedDisposersExact(ds, bean, t, ctx);
    SelectedDisposersDistinct(ds, bean, t, ctx);
    if |sel| > 1 {
      assert sel[0] in sel && sel[1] in sel && sel[0] != sel[1];
    }
    if |sel| == 1 {
      assert forall d | d in sel :: d == sel[0];
    }
  }

  // ---------------------------------------------------------------------
  // Building beans, disposers and observers
  // ---------------------------------------------------------------------

  /** The class bean of the bean class named `n`. */
  ghost function ClassBeanNamed(bcs: set<ClassInfo>, n: Name): BeanInfo
    requires n in ClassNames(bcs)
  {
    var c :| c in bcs && c.name == n;
    ClassBean(c)
  }

  /** `classToBean` maps each bean class name to its class bean. */
  ghost predicate ClassBeanMap(bcs: set<ClassInfo>, classToBean: map<Name, BeanInfo>) {
    && classToBean.Keys == ClassNames(bcs)
    && forall c | c in bcs :: classToBean[c.name] == ClassBean(c)
  }

  /** Builds one class bean per bean class, and the map from class name to class bean. */
  method BuildClassBeans(bcs: set<ClassInfo>) returns (beans: seq<BeanInfo>, classToBean: map<Name, BeanInfo>)
    requires UniqueNames(bcs)
    ensures |beans| == |bcs| && ClassBeansOf(beans, bcs)
    ensures ClassBeanMap(bcs, classToBean)
  {
    beans, classToBean := [], map[];
    var remaining := bcs;
    ghost var done: set<ClassInfo> := {};
    while remaining != {}
      invariant BuildProgress(bcs, done, remaining, beans, classToBean)
      decreases remaining
    {
      var c :| c in remaining;
      FreshName(bcs, done, c);
      BuildStep(bcs, done, remaining, beans, classToBean, c);
      beans := beans + [ClassBean(c)];
      classToBean := classToBean[c.name := ClassBean(c)];
      remaining := remaining - {c};
      done := done + {c};
    }
  }

  /** The loop state of BuildClassBeans: `done` classes have their beans, `remaining` ones do not yet. */
  ghost predicate BuildProgress(bcs: set<ClassInfo>, done: set<ClassInfo>, remaining: set<ClassInfo>,
                                beans: seq<BeanInfo>, classToBean: map<Name, BeanInfo>) {
    && done + remaining == bcs && done !! remaining
    && |beans| == |done| && ClassBeansOf(beans, done)
    && ClassBeanMap(done, classToBean)
  }

  lemma BuildStep(bcs: set<ClassInfo>, done: set<ClassInfo>, remaining: set<ClassInfo>,
                  beans: seq<BeanInfo>, classToBean: map<Name, BeanInfo>, c: ClassInfo)
    requires BuildProgress(bcs, done, remaining, beans, classToBean) && c in remaining && c.name !in ClassNames(done)
    ensures BuildProgress(bcs, done + {c}, remaining - {c}, beans + [ClassBean(c)], classToBean[c.name := ClassBean(c)])
  {
    SplitMove(bcs, done, remaining, c);
    ClassBeanMapAdd(done, c, classToBean);
    ClassBeansAdd(beans, done, c);
  }

  /** `beans` lists the class bean of every class in `bcs` once, and nothing else. */
  ghost predicate ClassBeansOf(beans: seq<BeanInfo>, bcs: set<ClassInfo>) {
    && Distinct(beans)
    && (forall b | b in beans :: b.ClassBean? && b.beanClass in bcs)
    && (forall c | c in bcs :: ClassBean(c) in beans)
  }

  lemma ClassBeansAdd(beans: seq<BeanInfo>, done: set<ClassInfo>, c: ClassInfo)
    requires |beans| == |done| && ClassBeansOf(beans, done) && c !in done
    ensures |beans + [ClassBean(c)]| == |done + {c}| && ClassBeansOf(beans + [ClassBean(c)], done + {c})
  {
    assert ClassBean(c) !in beans;
  }

  lemma ClassBeanMapAdd(done: set<ClassInfo>, c: ClassInfo, classToBean: map<Name, BeanInfo>)
    requires ClassBeanMap(done, classToBean) && c.name !in ClassNames(done)
    ensures ClassBeanMap(done + {c}, classToBean[c.name := ClassBean(c)])
  {
    assert ClassNames(done + {c}) == ClassNames(done) + {c.name};
  }

  lemma SplitMove<T>(all: set<T>, done: set<T>, remaining: set<T>, x: T)
    requires done + remaining == all && done !! remaining && x in remaining
    ensures (done + {x}) + (remaining - {x}) == all && (done + {x}) !! (remaining - {x})
    ensures x !in done
  {
  }

  lemma FreshName(bcs: set<ClassInfo>, done: set<ClassInfo>, c: ClassInfo)
    requires UniqueNames(bcs) && done <= bcs && c in bcs && c !in done
    ensures c.name !in ClassNames(done)
  {
  }

  /** The disposer record for a disposer method whose declaring class has a bean. */
  function DisposerFor(m: MethodInfo, classToBean: map<Name, BeanInfo>, disposedType: MethodInfo -> JType): DisposerInfo
    requires m.declaringClass in classToBean
  {
    DisposerInfo(classToBean[m.declaringClass], m, disposedType(m))
  }

  /** Builds a disposer for each disposer method declared on a class bean; others are dropped. */
  method BuildDisposers(dms: set<MethodInfo>, classToBean: map<Name, BeanInfo>, disposedType: MethodInfo -> JType)
    returns (ds: seq<DisposerInfo>)
    ensures Distinct(ds)
    ensures forall d | d in ds :: d.disposerMethod in dms && d.disposerMethod.declaringClass in classToBean &&
              d == DisposerFor(d.disposerMethod, classToBean, disposedType)
    ensures forall m | m in dms && m.declaringClass in classToBean :: DisposerFor(m, classToBean, disposedType) in ds
  {
    ds := [];
    var remaining := dms;
    while remaining != {}
      invariant remaining <= dms && Distinct(ds)
      invariant forall d | d in ds :: d.disposerMethod in dms - remaining && d.disposerMethod.declaringClass in classToBean &&
                  d == DisposerFor(d.disposerMethod, classToBean, disposedType)
      invariant forall m | m in dms - remaining && m.declaringClass in classToBean :: DisposerFor(m, classToBean, disposedType) in ds
      decreases remaining
    {
      var m :| m in remaining;
      if m.declaringClass in classToBean {
        var d := DisposerInfo(classToBean[m.declaringClass], m, disposedType(m));
        assert d !in ds;
        ds := ds + [d];
      }
      remaining := remaining - {m};
    }
  }

  /** Builds an observer for each observer method declared on a class bean; others are dropped. */
  method BuildObservers(oms: set<MethodInfo>, classToBean: map<Name, BeanInfo>) returns (obs: seq<ObserverInfo>)
    ensures Distinct(obs)
    ensures forall o | o in obs :: o.observerMethod in oms && o.observerMethod.declaringClass in classToBean &&
              o.declaringBean == classToBean[o.observerMethod.declaringClass]
    ensures forall m | m in oms && m.declaringClass in classToBean :: ObserverInfo(classToBean[m.declaringClass], m) in obs
  {
    obs := [];
    var remaining := oms;
    while remaining != {}
      invariant remaining <= oms && Distinct(obs)
      invariant forall o | o in obs :: o.observerMethod in oms - remaining && o.observerMethod.declaringClass in classToBean &&
                  o.declaringBean == classToBean[o.observerMethod.declaringClass]
      invariant forall m | m in oms - remaining && m.declaringClass in classToBean :: ObserverInfo(classToBean[m.declaringClass], m) in obs
      decreases remaining
    {
      var m :| m in remaining;
      if m.declaringClass in classToBean {
        var o := ObserverInfo(classToBean[m.declaringClass], m);
        assert o !in obs;
        obs := obs + [o];
      }
      remaining := remaining - {m};
    }
  }

  // ---------------------------------------------------------------------
  // What discovery as a whole promises
  // ---------------------------------------------------------------------

  /** The first selected disposer, if any. */
  function FirstOf(sel: seq<DisposerInfo>): Option<DisposerInfo> {
    if sel == [] then None else Some(sel[0])
  }

  /** The producer bean built for a producer declared on a class bean. */
  function ProducerBeanFor(t: Target, classToBean: map<Name, BeanInfo>, ds: seq<DisposerInfo>, ctx: MatchContext): BeanInfo
    requires IsProducerTarget(t) && t.DeclaringClass() in classToBean
  {
    var bean := classToBean[t.DeclaringClass()];
    ProducerBean(t, bean, FirstOf(SelectedDisposers(ds, bean, t, ctx)))
  }

  function MethodTargets(scan: ScanState): set<Target> {
    set m | m in scan.producerMethods :: MethodTarget(m)
  }

  function FieldTargets(scan: ScanState): set<Target> {
    set f | f in scan.producerFields :: FieldTarget(f)
  }

  /** The producer methods and producer fields the scan collected. */
  function ProducerTargets(scan: ScanState): set<Target> {
    MethodTargets(scan) + FieldTargets(scan)
  }

  /** The producers declared on a bean class. */
  ghost function OnBeans(producers: set<Target>, bcs: set<ClassInfo>): set<Target> {
    set t | t in producers && IsProducerTarget(t) && t.DeclaringClass() in ClassNames(bcs)
  }

  /** The disposers discovery builds: one per collected disposer method declared on a bean class. */
  ghost function DisposersOf(scan: ScanState, disposedType: MethodInfo -> JType): set<DisposerInfo> {
    set m | m in scan.disposerMethods && m.declaringClass in ClassNames(scan.beanClasses) ::
      DisposerInfo(ClassBeanNamed(scan.beanClasses, m.declaringClass), m, disposedType(m))
  }

  /** Two different disposers are selected for producer `t` of `bean`. */
  ghost predicate Ambiguous(bean: BeanInfo, t: Target, disposers: set<DisposerInfo>, ctx: MatchContext)
    requires IsProducerTarget(t)
  {
    exists d1, d2 :: d1 in disposers && d2 in disposers && d1 != d2 && Selects(bean, t, d1, ctx) && Selects(bean, t, d2, ctx)
  }

  /** A producer bean's disposer is the one disposer it selects, or none when it selects none. */
  ghost predicate DisposerChosen(b: BeanInfo, disposers: set<DisposerInfo>, ctx: MatchContext)
    requires b.IsProducer()
  {
    && (b.disposer.Some? ==> b.disposer.value in disposers && Selects(b.declaringBean, b.Producer(), b.disposer.value, ctx))
    && (forall d | d in disposers && Selects(b.declaringBean, b.Producer(), d, ctx) :: b.disposer == Some(d))
  }

  /**
   * Over a disposer list holding each disposer of a set once: the matcher
   * fails exactly when the producer is ambiguous, and otherwise the bean it
   * builds carries the disposer the producer selects, if any.
   */
  lemma ChosenFromList(ds: seq<DisposerInfo>, disposers: set<DisposerInfo>, bean: BeanInfo, t: Target, ctx: MatchContext)
    requires IsProducerTarget(t) && Distinct(ds) && (forall d :: d in ds <==> d in disposers)
    ensures |SelectedDisposers(ds, bean, t, ctx)| > 1 <==> Ambiguous(bean, t, disposers, ctx)
    ensures |SelectedDisposers(ds, bean, t, ctx)| <= 1 ==>
              DisposerChosen(ProducerBean(t, bean, FirstOf(SelectedDisposers(ds, bean, t, ctx))), disposers, ctx)
  {
    SelectionCount(ds, bean, t, ctx);
    SelectedDisposersExact(ds, bean, t, ctx);
  }

  /** The class bean map agrees with ClassBeanNamed. */
  lemma ClassBeanMapNamed(bcs: set<ClassInfo>, classToBean: map<Name, BeanInfo>)
    requires ClassBeanMap(bcs, classToBean)
    ensures forall n | n in ClassNames(bcs) :: n in classToBean && classToBean[n] == ClassBeanNamed(bcs, n)
  {
    forall n | n in ClassNames(bcs) ensures classToBean[n] == ClassBeanNamed(bcs, n) {
      var c :| c in bcs && c.name == n && ClassBeanNamed(bcs, n) == ClassBean(c);
    }
  }

  /** The disposer list built from the scan holds exactly the disposers of DisposersOf. */
  lemma DisposerListMatchesSet(scan: ScanState, classToBean: map<Name, BeanInfo>, ds: seq<DisposerInfo>,
                               disposedType: MethodInfo -> JType)
    requires ClassBeanMap(scan.beanClasses, classToBean)
    requires forall d | d in ds :: d.disposerMethod in scan.disposerMethods && d.disposerMethod.declaringClass in classToBean &&
               d == DisposerFor(d.disposerMethod, classToBean, disposedType)
    requires forall m | m in scan.disposerMethods && m.declaringClass in classToBean :: DisposerFor(m, classToBean, disposedType) in ds
    ensures forall d :: d in ds <==> d in DisposersOf(scan, disposedType)
  {
    ClassBeanMapNamed(scan.beanClasses, classToBean);
  }
}
