/**
 * The bean deployment: the object that builds the registries, discovers the
 * beans, observers and interceptors of an index, and answers lookups.
 */
module Deployment {
  import opened Wrappers
  import opened Jandex
  import opened Infos
  import opened Registries
  import opened Discovery
  import opened Annotations
  import opened Assembly
  import DotNames

  // ---------------------------------------------------------------------
  // The deployment object
  // ---------------------------------------------------------------------

  class BeanDeployment {
    const index: Index
    const collaborators: Collaborators
    var qualifiers: map<Name, ClassInfo>
    var interceptorBindings: map<Name, ClassInfo>
    var stereotypes: map<Name, StereotypeInfo>
    var interceptors: seq<InterceptorInfo>
    var beanResolver: Option<BeanResolver>
    var beans: seq<BeanInfo>
    var observers: seq<ObserverInfo>
    var interceptorResolver: Option<InterceptorResolver>
    var annotationTransformers: Option<seq<Transformer>>
    /** The components `init` has visited so far, in visit order. */
    var initialized: seq<Component>
    /** The bean-defining annotations discovery ran with. */
    ghost var beanDefiningAnnotations: seq<Name>

    /** The registries, interceptors and resolver built before discovery starts. */
    ghost predicate RegistriesBuilt()
      reads this`qualifiers, this`interceptorBindings, this`stereotypes, this`interceptors, this`beanResolver
    {
      && RegistriesOf(index, collaborators, qualifiers, interceptorBindings, stereotypes, interceptors)
      && beanResolver == Some(BeanResolver(collaborators.typeMatches))
    }

    /** The disposer matcher's view of this deployment. */
    function Ctx(): MatchContext
      reads this`qualifiers, this`beanResolver
      requires beanResolver.Some?
    {
      MatchContext(qualifiers, collaborators.hasQualifier, beanResolver.value.matches)
    }

    /** The scan of the index for the given bean-defining annotations. */
    ghost function Scan(bdas: seq<Name>): ScanState {
      ScanOf(ClassCandidates(index, bdas))
    }

    /** The disposers discovery builds for that scan. */
    ghost function Disposers(bdas: seq<Name>): set<DisposerInfo> {
      DisposersOf(Scan(bdas), collaborators.disposedType)
    }

    /** A fully built deployment. */
    ghost predicate Valid()
      reads this
    {
      && RegistriesBuilt()
      && DiscoveredFor(index, collaborators, Ctx(), beanDefiningAnnotations, beans, observers)
      && interceptorResolver == Some(InterceptorResolver(interceptors))
    }

    /**
     * The first half of the constructor: the registries, the interceptors,
     * and then the bean resolver, which disposer matching needs.
     */
    constructor Prepare(index: Index, collaborators: Collaborators)
      requires WellFormedIndex(index)
      ensures this.index == index && this.collaborators == collaborators
      ensures RegistriesBuilt()
      ensures beans == [] && observers == [] && initialized == []
      ensures interceptorResolver == None && annotationTransformers == None
    {
      this.index := index;
      this.collaborators := collaborators;
      var qs := FindQualifiers(index);
      var bs := FindInterceptorBindings(index);
      var sts := FindStereotypes(index, bs, collaborators.scopeFrom);
      qualifiers := qs;
      interceptorBindings := bs;
      stereotypes := sts;
      interceptors := [];
      beanResolver := None;
      beans := [];
      observers := [];
      interceptorResolver := None;
      annotationTransformers := None;
      initialized := [];
      beanDefiningAnnotations := [];
      new;
      interceptors := FindInterceptors();
      beanResolver := Some(BeanResolver(collaborators.typeMatches));
    }

    /**
     * The whole constructor: prepare, run discovery over the bean-defining
     * annotations, then build the interceptor resolver and keep the
     * transformers. Discovery's failure is the constructor's.
     */
    static method Create(index: Index, additional: Option<seq<Name>>, transformers: Option<seq<Transformer>>,
                         collaborators: Collaborators)
      returns (r: Result<BeanDeployment, DeploymentError>)
      requires WellFormedIndex(index)
      ensures r.Success? ==> fresh(r.value) && r.value.Valid()
      ensures r.Success? ==> r.value.index == index && r.value.collaborators == collaborators
      ensures r.Success? ==> r.value.annotationTransformers == transformers && r.value.initialized == []
      ensures r.Success? ==> BeanDefiningList(r.value.beanDefiningAnnotations, collaborators.scopes, additional,
                                              r.value.stereotypes.Keys)
      ensures r.Failure? ==> r.error.MultipleDisposers?
    {
      var d := new BeanDeployment.Prepare(index, collaborators);
      var bdas, found := d.DiscoverBeans(additional);
      if found.Failure? {
        return Failure(found.error);
      }
      d.Finish(bdas, found.value.0, found.value.1, transformers);
      return Success(d);
    }

    /**
     * The discovery step of the constructor: findBeans over the bean-defining
     * annotations built from the additional names and the stereotypes.
     */
    method DiscoverBeans(additional: Option<seq<Name>>)
      returns (bdas: seq<Name>, r: Result<(seq<BeanInfo>, seq<ObserverInfo>), DeploymentError>)
      requires beanResolver.Some?
      ensures BeanDefiningList(bdas, collaborators.scopes, additional, stereotypes.Keys)
      ensures r.Failure? ==> r.error.MultipleDisposers?
      ensures r.Success? ==> DiscoveredFor(index, collaborators, Ctx(), bdas, r.value.0, r.value.1)
    {
      bdas := InitBeanDefiningAnnotations(additional, stereotypes);
      r := FindBeans(bdas);
    }

    /** The last assignments of the constructor: beans, observers, the interceptor resolver, the transformers. */
    method Finish(bdas: seq<Name>, beans': seq<BeanInfo>, observers': seq<ObserverInfo>, transformers: Option<seq<Transformer>>)
      modifies this`beans, this`observers, this`interceptorResolver, this`annotationTransformers, this`beanDefiningAnnotations
      requires RegistriesBuilt()
      requires DiscoveredFor(index, collaborators, Ctx(), bdas, beans', observers')
      ensures Valid() && beanDefiningAnnotations == bdas && annotationTransformers == transformers
    {
      beans := beans';
      observers := observers';
      interceptorResolver := Some(InterceptorResolver(interceptors));
      annotationTransformers := transformers;
      beanDefiningAnnotations := bdas;
    }

    /** One interceptor per distinct class annotated with Interceptor; other targets are skipped. */
    method FindInterceptors() returns (r: seq<InterceptorInfo>)
      ensures InterceptorsOf(index.GetAnnotations(DotNames.INTERCEPTOR), r)
    {
      var ts := index.GetAnnotations(DotNames.INTERCEPTOR);
      var classes: set<ClassInfo> := {};
      for i := 0 to |ts|
        invariant forall c :: c in classes <==> ClassTarget(c) in ts[..i]
      {
        assert ts[..i + 1] == ts[..i] + [ts[i]];
        if ts[i].Kind() == CLASS {
          classes := classes + {ts[i].cls};
        }
      }
      assert ts[..|ts|] == ts;
      r := [];
      var remaining := classes;
      while remaining != {}
        invariant remaining <= classes && Distinct(r)
        invariant forall x | x in r :: x.interceptorClass in classes - remaining
        invariant forall c | c in classes - remaining :: InterceptorInfo(c) in r
        decreases remaining
      {
        var c :| c in remaining;
        assert InterceptorInfo(c) !in r;
        r := r + [InterceptorInfo(c)];
        remaining := remaining - {c};
      }
    }

    /** The bean-defining annotations: scopes, then the additional names, then the stereotypes, then Model. */
    method InitBeanDefiningAnnotations(additional: Option<seq<Name>>, stereotypes: map<Name, StereotypeInfo>)
      returns (bdas: seq<Name>)
      ensures BeanDefiningList(bdas, collaborators.scopes, additional, stereotypes.Keys)
    {
      var scopes := collaborators.scopes;
      bdas := [];
      for i := 0 to |scopes|
        invariant |bdas| == i && forall k | 0 <= k < i :: bdas[k] == scopes[k].dotName
      {
        bdas := bdas + [scopes[i].dotName];
      }
      if additional.Some? {
        bdas := bdas + additional.value;
      }
      var names: seq<Name> := [];
      var remaining := stereotypes.Keys;
      while remaining != {}
        invariant remaining <= stereotypes.Keys && Distinct(names)
        invariant |names| + |remaining| == |stereotypes.Keys|
        invariant forall x :: x in names <==> x in stereotypes.Keys - remaining
        decreases remaining
      {
        var x :| x in remaining;
        assert x !in names;
        names := names + [x];
        remaining := remaining - {x};
      }
      ghost var prefix := bdas;
      bdas := bdas + names + [DotNames.MODEL];
      assert bdas[|prefix|..|bdas| - 1] == names;
      assert bdas[|scopes|..|prefix|] == prefix[|scopes|..];
    }

    /**
     * The scan of findBeans: annotation by annotation, target by target,
     * every class target is visited.
     */
    method CollectBeanClasses(bdas: seq<Name>) returns (scan: ScanState)
      ensures scan == Scan(bdas)
    {
      scan := ScanState({}, {}, {}, {}, {}, {});
      ghost var seen: seq<ClassInfo> := [];
      for i := 0 to |bdas|
        invariant seen == ClassCandidates(index, bdas[..i]) && scan == ScanOf(seen)
      {
        var ts := index.GetAnnotations(bdas[i]);
        CandidatesStep(index, bdas, i);
        ghost var before := seen;
        for j := 0 to |ts|
          invariant seen == before + ClassesOf(ts[..j]) && scan == ScanOf(seen)
        {
          ClassesStep(ts, j);
          if ts[j].Kind() == CLASS {
            scan := VisitCandidate(scan, ts[j].cls, seen);
            seen := seen + [ts[j].cls];
          }
        }
        assert ts[..|ts|] == ts;
      }
      assert bdas[..|bdas|] == bdas;
    }

    /** Whether every qualifier of a producer passes the qualifier check. */
    method QualifiersSatisfied(quals: set<Annotation>) returns (ok: bool)
      requires beanResolver.Some?
      requires forall a | a in quals :: a.name in qualifiers
      ensures ok == QualifiersHold(quals, Ctx())
    {
      ok := true;
      var remaining := quals;
      while remaining != {}
        invariant remaining <= quals
        invariant ok == forall a | a in quals - remaining :: collaborators.hasQualifier(qualifiers[a.name], a)
        decreases remaining
      {
        var a :| a in remaining;
        if !collaborators.hasQualifier(qualifiers[a.name], a) {
          ok := false;
        }
        remaining := remaining - {a};
      }
    }

    /**
     * The disposer of a producer method or field: none, the only one
     * selected, or a failure when several are; other targets are rejected.
     */
    method FindDisposer(declaringBean: BeanInfo, t: Target, ds: seq<DisposerInfo>)
      returns (r: Result<Option<DisposerInfo>, DeploymentError>)
      requires beanResolver.Some?
      ensures !IsProducerTarget(t) ==> r == Failure(UnsupportedTarget(t))
      ensures IsProducerTarget(t) ==>
                var sel := SelectedDisposers(ds, declaringBean, t, Ctx());
                r == if |sel| > 1 then Failure(MultipleDisposers(t)) else Success(FirstOf(sel))
    {
      var beanType: JType;
      var quals: set<Annotation>;
      if t.Kind() == FIELD {
        beanType := t.fieldInfo.fieldType;
        quals := set a | a in t.fieldInfo.annotations && a.name in qualifiers;
      } else if t.Kind() == METHOD {
        beanType := t.methodInfo.returnType;
        quals := set a | a in t.methodInfo.annotations && a.targetKind == METHOD && a.name in qualifiers;
      } else {
        return Failure(UnsupportedTarget(t));
      }
      var found: seq<DisposerInfo> := [];
      for i := 0 to |ds|
        invariant found == SelectedDisposers(ds[..i], declaringBean, t, Ctx())
      {
        var d := ds[i];
        assert ds[..i + 1][..i] == ds[..i];
        if d.declaringBean == declaringBean {
          var hasQualifier := QualifiersSatisfied(quals);
          if hasQualifier && beanResolver.value.matches(beanType, d.disposedType) {
            found := found + [d];
          }
        }
      }
      assert ds[..|ds|] == ds;
      if |found| > 1 {
        return Failure(MultipleDisposers(t));
      }
      return Success(if found == [] then None else Some(found[0]));
    }

    /**
     * A producer bean for every producer declared on a class bean, each with
     * its disposer; the first ambiguous producer met aborts the loop.
     */
    method AddProducerBeans(producers: set<Target>, classToBean: map<Name, BeanInfo>, ds: seq<DisposerInfo>)
      returns (r: Result<seq<BeanInfo>, DeploymentError>)
      requires beanResolver.Some?
      requires forall t | t in producers :: IsProducerTarget(t)
      ensures r.Failure? <==> exists t | t in producers :: Overloaded(t, classToBean, ds, Ctx())
      ensures r.Failure? ==> && r.error.MultipleDisposers? && r.error.producer in producers
                             && Overloaded(r.error.producer, classToBean, ds, Ctx())
      ensures r.Success? ==> ProducerBeansOf(r.value, producers, classToBean, ds, Ctx())
    {
      var ps: seq<BeanInfo> := [];
      var remaining := producers;
      while remaining != {}
        invariant remaining <= producers
        invariant ProducerBeansOf(ps, producers - remaining, classToBean, ds, Ctx())
        invariant forall t | t in producers - remaining :: !Overloaded(t, classToBean, ds, Ctx())
        decreases remaining
      {
        var t :| t in remaining;
        var declaringClass := t.DeclaringClass();
        if declaringClass in classToBean {
          var declaringBean := classToBean[declaringClass];
          var disposer := FindDisposer(declaringBean, t, ds);
          if disposer.Failure? {
            return Failure(disposer.error);
          }
          var b := ProducerBean(t, declaringBean, disposer.value);
          assert b !in ps;
          ps := ps + [b];
        }
        remaining := remaining - {t};
      }
      return Success(ps);
    }

    /**
     * findBeans: scan the candidates, then build the class beans, the
     * disposers, the producer-method beans, the producer-field beans and the
     * observers. It fails when some producer selects two disposers.
     */
    method FindBeans(bdas: seq<Name>) returns (r: Result<(seq<BeanInfo>, seq<ObserverInfo>), DeploymentError>)
      requires beanResolver.Some?
      ensures r.Failure? <==> SomeAmbiguous(ProducerTargets(Scan(bdas)), Scan(bdas).beanClasses, Disposers(bdas), Ctx())
      ensures r.Failure? ==> && r.error.MultipleDisposers?
                             && AmbiguousProducer(r.error.producer, ProducerTargets(Scan(bdas)), Scan(bdas).beanClasses,
                                                  Disposers(bdas), Ctx())
      ensures r.Failure? && SomeMethodAmbiguous(Scan(bdas), Disposers(bdas), Ctx()) ==> r.error.producer.MethodTarget?
      ensures r.Success? ==> Discovered(Scan(bdas), Disposers(bdas), Ctx(), r.value.0, r.value.1)
    {
      var scan := CollectBeanClasses(bdas);
      BeanClassNamesUnique(ClassCandidates(index, bdas));
      var classBeans, classToBean := BuildClassBeans(scan.beanClasses);
      var ds := BuildDisposers(scan.disposerMethods, classToBean, collaborators.disposedType);
      DisposerListMatchesSet(scan, classToBean, ds, collaborators.disposedType);
      var pm := AddProducerBeans(MethodTargets(scan), classToBean, ds);
      if pm.Failure? {
        OverloadedWitness(pm.error.producer, scan, classToBean, ds, collaborators.disposedType, Ctx());
        return Failure(pm.error);
      }
      var pf := AddProducerBeans(FieldTargets(scan), classToBean, ds);
      if pf.Failure? {
        MethodsUnambiguous(scan, classToBean, ds, collaborators.disposedType, Ctx());
        OverloadedWitness(pf.error.producer, scan, classToBean, ds, collaborators.disposedType, Ctx());
        return Failure(pf.error);
      }
      var obs := BuildObservers(scan.observerMethods, classToBean);
      DiscoveredFromParts(scan, classBeans, classToBean, ds, pm.value, pf.value, obs, collaborators.disposedType, Ctx());
      var beans := classBeans + pm.value + pf.value;
      r := Success((beans, obs));
    }

    /**
     * getAnnotations as written: a class's annotations folded through the
     * transformers; a method or field target, and every other kind, fails.
     */
    method GetAnnotations(target: Target) returns (r: Result<seq<Annotation>, DeploymentError>)
      ensures r == AnnotationsAsWritten(target, annotationTransformers)
    {
      var annotations: seq<Annotation>;
      if target.Kind() == CLASS {
        annotations := target.cls.classAnnotations;
      } else if target.Kind() == METHOD {
        // no break: the method case runs on into the field case, whose asField() rejects a method
        return Failure(NotAField);
      } else {
        // the field case runs on into the default case, which throws, as every other kind does
        return Failure(UnsupportedOperation);
      }
      if annotationTransformers.None? || annotationTransformers.value == [] {
        return Success(annotations);
      }
      var ts := annotationTransformers.value;
      for i := 0 to |ts|
        invariant Transform(target, annotations, ts[i..]) == Transform(target, target.cls.classAnnotations, ts)
      {
        assert ts[i..][1..] == ts[i + 1..];
        annotations := ts[i](target, annotations);
      }
      return Success(annotations);
    }

    /** Visits every bean, then every interceptor. */
    method Init()
      modifies this`initialized
      ensures |initialized| == |old(initialized)| + |beans| + |interceptors|
      ensures initialized[..|old(initialized)|] == old(initialized)
      ensures forall k | 0 <= k < |beans| :: initialized[|old(initialized)| + k] == BeanComponent(beans[k])
      ensures forall k | 0 <= k < |interceptors| ::
                initialized[|old(initialized)| + |beans| + k] == InterceptorComponent(interceptors[k])
    {
      for k := 0 to |beans|
        invariant |initialized| == |old(initialized)| + k
        invariant initialized[..|old(initialized)|] == old(initialized)
        invariant forall j | 0 <= j < k :: initialized[|old(initialized)| + j] == BeanComponent(beans[j])
      {
        initialized := initialized + [BeanComponent(beans[k])];
      }
      for k := 0 to |interceptors|
        invariant |initialized| == |old(initialized)| + |beans| + k
        invariant initialized[..|old(initialized)|] == old(initialized)
        invariant forall j | 0 <= j < |beans| :: initialized[|old(initialized)| + j] == BeanComponent(beans[j])
        invariant forall j | 0 <= j < k :: initialized[|old(initialized)| + |beans| + j] == InterceptorComponent(interceptors[j])
      {
        initialized := initialized + [InterceptorComponent(interceptors[k])];
      }
    }

    function GetBeans(): seq<BeanInfo> reads this { beans }

    function GetObservers(): seq<ObserverInfo> reads this { observers }

    function GetInterceptors(): seq<InterceptorInfo> reads this { interceptors }

    function GetIndex(): Index { index }

    function GetBeanResolver(): Option<BeanResolver> reads this { beanResolver }

    function GetInterceptorResolver(): Option<InterceptorResolver> reads this { interceptorResolver }

    /** The qualifier of a name: the last class annotated with Qualifier with that name, if any. */
    function GetQualifier(name: Name): (r: Option<ClassInfo>)
      reads this
      ensures RegistriesBuilt() ==>
                var ts := index.GetAnnotations(DotNames.QUALIFIER);
                && (r.Some? <==> exists k :: 0 <= k < |ts| && ts[k].cls.name == name)
                && (r.Some? ==> LastNamed(ts, name, |ts|, r.value))
    {
      if name in qualifiers then Some(qualifiers[name]) else None
    }

    /** The interceptor binding of a name: the last class annotated with InterceptorBinding with that name, if any. */
    function GetInterceptorBinding(name: Name): (r: Option<ClassInfo>)
      reads this
      ensures RegistriesBuilt() ==>
                var ts := index.GetAnnotations(DotNames.INTERCEPTOR_BINDING);
                && (r.Some? <==> exists k :: 0 <= k < |ts| && ts[k].cls.name == name)
                && (r.Some? ==> LastNamed(ts, name, |ts|, r.value))
    {
      if name in interceptorBindings then Some(interceptorBindings[name]) else None
    }

    /** The stereotype of a name: present when a Stereotype-annotated class of that name resolves in the index. */
    function GetStereotype(name: Name): (r: Option<StereotypeInfo>)
      reads this
      ensures RegistriesBuilt() ==>
                var ts := index.GetAnnotations(DotNames.STEREOTYPE);
                && (r.Some? <==> name in index.classes && exists k :: 0 <= k < |ts| && ts[k].cls.name == name)
                && (r.Some? ==> r.value == Stereotype(index.classes[name], interceptorBindings, collaborators.scopeFrom))
    {
      if name in stereotypes then Some(stereotypes[name]) else None
    }
  }
}
