/**
 * What a bean deployment promises, stated on values: the shape of the
 * bean-defining annotation list, the interceptors, the registries, and the
 * beans and observers discovery builds for a scan.
 */
module Assembly {
  import opened Wrappers
  import opened Jandex
  import opened Infos
  import opened Registries
  import opened Discovery
  import DotNames

  // ---------------------------------------------------------------------
  // What the deployment promises, on values
  // ---------------------------------------------------------------------

  /** The meta-annotations read through `asClass()` only ever sit on annotation types. */
  predicate WellFormedIndex(index: Index) {
    && ClassTargetsOnly(index.GetAnnotations(DotNames.QUALIFIER))
    && ClassTargetsOnly(index.GetAnnotations(DotNames.INTERCEPTOR_BINDING))
    && ClassTargetsOnly(index.GetAnnotations(DotNames.STEREOTYPE))
  }

  /** One interceptor per distinct class carrying Interceptor. */
  ghost predicate InterceptorsOf(ts: seq<Target>, interceptors: seq<InterceptorInfo>) {
    && Distinct(interceptors)
    && (forall i | i in interceptors :: ClassTarget(i.interceptorClass) in ts)
    && (forall c | ClassTarget(c) in ts :: InterceptorInfo(c) in interceptors)
  }

  /**
   * The bean-defining annotations: the built-in scopes in order, then the
   * additional names if any, then every stereotype name once, then Model.
   */
  ghost predicate BeanDefiningList(bdas: seq<Name>, scopes: seq<ScopeInfo>, additional: Option<seq<Name>>,
                                   stereotypeNames: set<Name>) {
    var extra := if additional.Some? then additional.value else [];
    var n := |scopes| + |extra|;
    && |bdas| == n + |stereotypeNames| + 1
    && (forall i | 0 <= i < |scopes| :: bdas[i] == scopes[i].dotName)
    && bdas[|scopes|..n] == extra
    && Distinct(bdas[n..|bdas| - 1])
    && (forall x :: x in bdas[n..|bdas| - 1] <==> x in stereotypeNames)
    && bdas[|bdas| - 1] == DotNames.MODEL
  }

  /**
   * `ps` holds one producer bean per producer in `producers` declared on a
   * bean class, and nothing else; each is declared on that class bean and
   * carries the disposer it selects, if any.
   */
  ghost predicate ProducersBuilt(ps: seq<BeanInfo>, producers: set<Target>, bcs: set<ClassInfo>,
                                 disposers: set<DisposerInfo>, ctx: MatchContext) {
    && Distinct(ps)
    && (forall b | b in ps ::
          && b.IsProducer() && b.Producer() in producers && b.Producer().DeclaringClass() in ClassNames(bcs)
          && b.declaringBean == ClassBeanNamed(bcs, b.Producer().DeclaringClass())
          && DisposerChosen(b, disposers, ctx))
    && (forall t | t in producers && IsProducerTarget(t) && t.DeclaringClass() in ClassNames(bcs) ::
          exists b :: b in ps && b.IsProducer() && b.Producer() == t)
  }

  /** One observer per collected observer method declared on a bean class, and nothing else. */
  ghost predicate ObserversBuilt(observers: seq<ObserverInfo>, oms: set<MethodInfo>, bcs: set<ClassInfo>) {
    && Distinct(observers)
    && (forall o | o in observers ::
          && o.observerMethod in oms && o.observerMethod.declaringClass in ClassNames(bcs)
          && o.declaringBean == ClassBeanNamed(bcs, o.observerMethod.declaringClass))
    && (forall m | m in oms && m.declaringClass in ClassNames(bcs) ::
          ObserverInfo(ClassBeanNamed(bcs, m.declaringClass), m) in observers)
  }

  /**
   * What discovery builds from a scan: the class beans first, then the
   * producer beans with every producer-method bean before every
   * producer-field bean; and the observers.
   */
  ghost predicate Discovered(scan: ScanState, disposers: set<DisposerInfo>, ctx: MatchContext,
                             beans: seq<BeanInfo>, observers: seq<ObserverInfo>) {
    var bcs := scan.beanClasses;
    && |bcs| <= |beans|
    && ClassBeansOf(beans[..|bcs|], bcs)
    && ProducersBuilt(beans[|bcs|..], ProducerTargets(scan), bcs, disposers, ctx)
    && (forall i, j | |bcs| <= i < j < |beans| :: beans[j].ProducerMethodBean? ==> beans[i].ProducerMethodBean?)
    && ObserversBuilt(observers, scan.observerMethods, bcs)
  }

  /** The registries and interceptors built from an index before discovery. */
  ghost predicate RegistriesOf(index: Index, collaborators: Collaborators, qualifiers: map<Name, ClassInfo>,
                               interceptorBindings: map<Name, ClassInfo>, stereotypes: map<Name, StereotypeInfo>,
                               interceptors: seq<InterceptorInfo>) {
    && WellFormedIndex(index)
    && RegistryOf(index.GetAnnotations(DotNames.QUALIFIER), qualifiers)
    && RegistryOf(index.GetAnnotations(DotNames.INTERCEPTOR_BINDING), interceptorBindings)
    && StereotypeRegistryOf(index, interceptorBindings, collaborators.scopeFrom, stereotypes)
    && InterceptorsOf(index.GetAnnotations(DotNames.INTERCEPTOR), interceptors)
  }

  /** What discovery builds from an index for a list of bean-defining annotations. */
  ghost predicate DiscoveredFor(index: Index, collaborators: Collaborators, ctx: MatchContext, bdas: seq<Name>,
                                beans: seq<BeanInfo>, observers: seq<ObserverInfo>) {
    var scan := ScanOf(ClassCandidates(index, bdas));
    Discovered(scan, DisposersOf(scan, collaborators.disposedType), ctx, beans, observers)
  }

  /** `t` is a producer declared on a bean class that selects two different disposers. */
  ghost predicate AmbiguousProducer(t: Target, producers: set<Target>, bcs: set<ClassInfo>, disposers: set<DisposerInfo>,
                                    ctx: MatchContext) {
    && t in producers && IsProducerTarget(t) && t.DeclaringClass() in ClassNames(bcs)
    && Ambiguous(ClassBeanNamed(bcs, t.DeclaringClass()), t, disposers, ctx)
  }

  /** Some producer declared on a bean class selects two different disposers. */
  ghost predicate SomeAmbiguous(producers: set<Target>, bcs: set<ClassInfo>, disposers: set<DisposerInfo>, ctx: MatchContext) {
    exists t :: AmbiguousProducer(t, producers, bcs, disposers, ctx)
  }

  /** The producer bean list built from a disposer list, before translation to the scan's terms. */
  ghost predicate ProducerBeansOf(ps: seq<BeanInfo>, producers: set<Target>, classToBean: map<Name, BeanInfo>,
                                  ds: seq<DisposerInfo>, ctx: MatchContext) {
    && Distinct(ps)
    && (forall b | b in ps ::
          && b.IsProducer() && b.Producer() in producers && b.Producer().DeclaringClass() in classToBean
          && b == ProducerBeanFor(b.Producer(), classToBean, ds, ctx))
    && (forall t | t in producers && IsProducerTarget(t) && t.DeclaringClass() in classToBean ::
          ProducerBeanFor(t, classToBean, ds, ctx) in ps)
  }

  /** Some producer method of the scan, declared on a bean class, selects two different disposers. */
  ghost predicate SomeMethodAmbiguous(scan: ScanState, disposers: set<DisposerInfo>, ctx: MatchContext) {
    exists t | t in MethodTargets(scan) :: AmbiguousProducer(t, ProducerTargets(scan), scan.beanClasses, disposers, ctx)
  }

  /** Every class target of @Interceptor lists Interceptor among the annotations in it. */
  predicate InterceptorsMarked(index: Index) {
    forall t | t in index.GetAnnotations(DotNames.INTERCEPTOR) && t.ClassTarget? ::
      DotNames.INTERCEPTOR in t.cls.annotationNames
  }

  /** A producer whose declaring class has a bean and which selects more than one listed disposer. */
  predicate Overloaded(t: Target, classToBean: map<Name, BeanInfo>, ds: seq<DisposerInfo>, ctx: MatchContext) {
    IsProducerTarget(t) && t.DeclaringClass() in classToBean &&
    |SelectedDisposers(ds, classToBean[t.DeclaringClass()], t, ctx)| > 1
  }

  // ---------------------------------------------------------------------
  // From the builders' terms to the scan's
  // ---------------------------------------------------------------------

  /** Over the disposers of the scan, a listed producer is overloaded exactly when it is ambiguous. */
  lemma OverloadedIsAmbiguous(t: Target, bcs: set<ClassInfo>, classToBean: map<Name, BeanInfo>,
                              ds: seq<DisposerInfo>, disposers: set<DisposerInfo>, ctx: MatchContext)
    requires IsProducerTarget(t) && ClassBeanMap(bcs, classToBean)
    requires Distinct(ds) && (forall d :: d in ds <==> d in disposers)
    ensures Overloaded(t, classToBean, ds, ctx) <==>
              t.DeclaringClass() in ClassNames(bcs) && Ambiguous(ClassBeanNamed(bcs, t.DeclaringClass()), t, disposers, ctx)
  {
    ClassBeanMapNamed(bcs, classToBean);
    if t.DeclaringClass() in classToBean {
      ChosenFromList(ds, disposers, classToBean[t.DeclaringClass()], t, ctx);
    }
  }

  /** An overloaded producer of the scan is a witness that some producer is ambiguous. */
  lemma OverloadedWitness(t: Target, scan: ScanState, classToBean: map<Name, BeanInfo>, ds: seq<DisposerInfo>,
                          disposedType: MethodInfo -> JType, ctx: MatchContext)
    requires t in ProducerTargets(scan) && Overloaded(t, classToBean, ds, ctx)
    requires ClassBeanMap(scan.beanClasses, classToBean)
    requires Distinct(ds) && (forall d :: d in ds <==> d in DisposersOf(scan, disposedType))
    ensures AmbiguousProducer(t, ProducerTargets(scan), scan.beanClasses, DisposersOf(scan, disposedType), ctx)
    ensures SomeAmbiguous(ProducerTargets(scan), scan.beanClasses, DisposersOf(scan, disposedType), ctx)
  {
    OverloadedIsAmbiguous(t, scan.beanClasses, classToBean, ds, DisposersOf(scan, disposedType), ctx);
    assert AmbiguousProducer(t, ProducerTargets(scan), scan.beanClasses, DisposersOf(scan, disposedType), ctx);
  }

  /** When no producer method was overloaded, no producer method of the scan is ambiguous. */
  lemma MethodsUnambiguous(scan: ScanState, classToBean: map<Name, BeanInfo>, ds: seq<DisposerInfo>,
                           disposedType: MethodInfo -> JType, ctx: MatchContext)
    requires ClassBeanMap(scan.beanClasses, classToBean)
    requires Distinct(ds) && (forall d :: d in ds <==> d in DisposersOf(scan, disposedType))
    requires forall t | t in MethodTargets(scan) :: !Overloaded(t, classToBean, ds, ctx)
    ensures !SomeMethodAmbiguous(scan, DisposersOf(scan, disposedType), ctx)
  {
    forall t | t in MethodTargets(scan)
      ensures !AmbiguousProducer(t, ProducerTargets(scan), scan.beanClasses, DisposersOf(scan, disposedType), ctx)
    {
      OverloadedIsAmbiguous(t, scan.beanClasses, classToBean, ds, DisposersOf(scan, disposedType), ctx);
    }
  }

  /** Producer beans built over the scan's disposer list are the producer beans the scan promises. */
  lemma ProducersTranslate(ps: seq<BeanInfo>, producers: set<Target>, bcs: set<ClassInfo>,
                           classToBean: map<Name, BeanInfo>, ds: seq<DisposerInfo>,
                           disposers: set<DisposerInfo>, ctx: MatchContext)
    requires ClassBeanMap(bcs, classToBean)
    requires Distinct(ds) && (forall d :: d in ds <==> d in disposers)
    requires ProducerBeansOf(ps, producers, classToBean, ds, ctx)
    requires forall t | t in producers :: !Overloaded(t, classToBean, ds, ctx)
    ensures ProducersBuilt(ps, producers, bcs, disposers, ctx)
  {
    ClassBeanMapNamed(bcs, classToBean);
    forall b | b in ps
      ensures DisposerChosen(b, disposers, ctx)
    {
      var t := b.Producer();
      ChosenFromList(ds, disposers, classToBean[t.DeclaringClass()], t, ctx);
    }
    forall t | t in producers && IsProducerTarget(t) && t.DeclaringClass() in ClassNames(bcs)
      ensures exists b :: b in ps && b.IsProducer() && b.Producer() == t
    {
      var b := ProducerBeanFor(t, classToBean, ds, ctx);
      assert b in ps && b.IsProducer() && b.Producer() == t;
    }
  }

  /** Producer-method beans followed by producer-field beans are the producer beans of both sets. */
  lemma ProducersConcat(p1: seq<BeanInfo>, s1: set<Target>, p2: seq<BeanInfo>, s2: set<Target>, bcs: set<ClassInfo>,
                        disposers: set<DisposerInfo>, ctx: MatchContext)
    requires forall t | t in s1 :: t.MethodTarget?
    requires forall t | t in s2 :: t.FieldTarget?
    requires ProducersBuilt(p1, s1, bcs, disposers, ctx) && ProducersBuilt(p2, s2, bcs, disposers, ctx)
    ensures ProducersBuilt(p1 + p2, s1 + s2, bcs, disposers, ctx)
    ensures forall i, j | 0 <= i < j < |p1 + p2| :: (p1 + p2)[j].ProducerMethodBean? ==> (p1 + p2)[i].ProducerMethodBean?
  {
    var p := p1 + p2;
    assert forall b | b in p1 :: b.ProducerMethodBean?;
    assert forall b | b in p2 :: b.ProducerFieldBean?;
    forall i, j | 0 <= i < j < |p|
      ensures p[i] != p[j]
    {
      if j < |p1| {
      } else if i >= |p1| {
        assert p[i] == p2[i - |p1|] && p[j] == p2[j - |p1|];
      } else {
        assert p[i] in p1 && p[j] == p2[j - |p1|] && p[j] in p2;
      }
    }
    forall j | |p1| <= j < |p|
      ensures p[j].ProducerFieldBean?
    {
      assert p[j] == p2[j - |p1|] && p2[j - |p1|] in p2;
    }
    forall i, j | 0 <= i < j < |p| && p[j].ProducerMethodBean?
      ensures p[i].ProducerMethodBean?
    {
      assert p[i] in p1;
    }
    forall t | t in s1 + s2 && IsProducerTarget(t) && t.DeclaringClass() in ClassNames(bcs)
      ensures exists b :: b in p && b.IsProducer() && b.Producer() == t
    {
      if t in s1 {
        var b :| b in p1 && b.IsProducer() && b.Producer() == t;
        assert b in p;
      } else {
        var b :| b in p2 && b.IsProducer() && b.Producer() == t;
        assert b in p;
      }
    }
  }

  /**
   * The pieces findBeans builds, each as its builder promises, add up to what
   * discovery promises; and when no producer was overloaded, none is ambiguous.
   */
  lemma DiscoveredFromParts(scan: ScanState, classBeans: seq<BeanInfo>, classToBean: map<Name, BeanInfo>,
                            ds: seq<DisposerInfo>, pm: seq<BeanInfo>, pf: seq<BeanInfo>, obs: seq<ObserverInfo>,
                            disposedType: MethodInfo -> JType, ctx: MatchContext)
    requires |classBeans| == |scan.beanClasses| && ClassBeansOf(classBeans, scan.beanClasses)
    requires ClassBeanMap(scan.beanClasses, classToBean)
    requires Distinct(ds) && (forall d :: d in ds <==> d in DisposersOf(scan, disposedType))
    requires ProducerBeansOf(pm, MethodTargets(scan), classToBean, ds, ctx)
    requires forall t | t in MethodTargets(scan) :: !Overloaded(t, classToBean, ds, ctx)
    requires ProducerBeansOf(pf, FieldTargets(scan), classToBean, ds, ctx)
    requires forall t | t in FieldTargets(scan) :: !Overloaded(t, classToBean, ds, ctx)
    requires Distinct(obs)
    requires forall o | o in obs :: o.observerMethod in scan.observerMethods && o.observerMethod.declaringClass in classToBean &&
               o.declaringBean == classToBean[o.observerMethod.declaringClass]
    requires forall m | m in scan.observerMethods && m.declaringClass in classToBean ::
               ObserverInfo(classToBean[m.declaringClass], m) in obs
    ensures Discovered(scan, DisposersOf(scan, disposedType), ctx, classBeans + pm + pf, obs)
    ensures !SomeAmbiguous(ProducerTargets(scan), scan.beanClasses, DisposersOf(scan, disposedType), ctx)
  {
    var bcs := scan.beanClasses;
    var disposers := DisposersOf(scan, disposedType);
    ProducersTranslate(pm, MethodTargets(scan), bcs, classToBean, ds, disposers, ctx);
    ProducersTranslate(pf, FieldTargets(scan), bcs, classToBean, ds, disposers, ctx);
    ProducersConcat(pm, MethodTargets(scan), pf, FieldTargets(scan), bcs, disposers, ctx);
    ObserversTranslate(obs, scan.observerMethods, bcs, classToBean);
    var beans := classBeans + pm + pf;
    assert beans[..|bcs|] == classBeans;
    assert beans[|bcs|..] == pm + pf;
    forall t | t in ProducerTargets(scan) && IsProducerTarget(t)
      ensures !AmbiguousProducer(t, ProducerTargets(scan), bcs, disposers, ctx)
    {
      OverloadedIsAmbiguous(t, bcs, classToBean, ds, disposers, ctx);
    }
  }

  /** Observers built through the class bean map are the observers the scan promises. */
  lemma ObserversTranslate(observers: seq<ObserverInfo>, oms: set<MethodInfo>, bcs: set<ClassInfo>,
                           classToBean: map<Name, BeanInfo>)
    requires ClassBeanMap(bcs, classToBean) && Distinct(observers)
    requires forall o | o in observers :: o.observerMethod in oms && o.observerMethod.declaringClass in classToBean &&
               o.declaringBean == classToBean[o.observerMethod.declaringClass]
    requires forall m | m in oms && m.declaringClass in classToBean :: ObserverInfo(classToBean[m.declaringClass], m) in observers
    ensures ObserversBuilt(observers, oms, bcs)
  {
    ClassBeanMapNamed(bcs, classToBean);
  }

  // ---------------------------------------------------------------------
  // What a consistent index rules out
  // ---------------------------------------------------------------------

  /**
   * On an index that lists each class's own members, every collected producer,
   * disposer and observer is declared on a bean class, so the branches that
   * drop members of classes without a bean never fire.
   */
  lemma {:induction false} NoOrphanMembers(cs: seq<ClassInfo>)
    requires forall c | c in cs :: MembersDeclared(c)
    ensures var st := ScanOf(cs);
      && (forall m | m in st.producerMethods :: m.declaringClass in ClassNames(st.beanClasses))
      && (forall m | m in st.disposerMethods :: m.declaringClass in ClassNames(st.beanClasses))
      && (forall m | m in st.observerMethods :: m.declaringClass in ClassNames(st.beanClasses))
      && (forall f | f in st.producerFields :: f.declaringClass in ClassNames(st.beanClasses))
  {
    var bcs := BeanClassesOf(cs);
    BeanClassesSubset(cs);
    forall c | c in bcs ensures MembersDeclared(c) && c.name in ClassNames(bcs) {
    }
  }

  /** No interceptor class is also a bean class: the scan skips every class with Interceptor in it. */
  lemma InterceptorsAreNotBeanClasses(index: Index, bdas: seq<Name>, interceptors: seq<InterceptorInfo>)
    requires InterceptorsMarked(index)
    requires InterceptorsOf(index.GetAnnotations(DotNames.INTERCEPTOR), interceptors)
    ensures forall i | i in interceptors :: i.interceptorClass !in ScanOf(ClassCandidates(index, bdas)).beanClasses
  {
    BeanClassesSubset(ClassCandidates(index, bdas));
  }
}
