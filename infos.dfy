/**
 * The records the deployment builds (beans, disposers, observers,
 * interceptors, stereotypes) and the collaborators whose internals are not
 * part of this model.
 */
module Infos {
  import opened Wrappers
  import opened Jandex

  /** A built-in scope, identified by its annotation name. */
  datatype ScopeInfo = ScopeInfo(dotName: Name)

  datatype StereotypeInfo = StereotypeInfo(
    scope: Option<ScopeInfo>,
    bindings: seq<Annotation>,
    isAlternative: bool,
    target: ClassInfo)

  /** A bean: a class bean, or a producer method or field declared on a class bean. */
  datatype BeanInfo =
    | ClassBean(beanClass: ClassInfo)
    | ProducerMethodBean(producerMethod: MethodInfo, declaringBean: BeanInfo, disposer: Option<DisposerInfo>)
    | ProducerFieldBean(producerField: FieldInfo, declaringBean: BeanInfo, disposer: Option<DisposerInfo>)
  {
    predicate IsProducer() {
      ProducerMethodBean? || ProducerFieldBean?
    }

    /** The producer method or field a producer bean stands for. */
    function Producer(): Target
      requires IsProducer()
    {
      if ProducerMethodBean? then MethodTarget(producerMethod) else FieldTarget(producerField)
    }
  }

  /** A disposer method on a class bean, with the type of its disposed parameter. */
  datatype DisposerInfo = DisposerInfo(declaringBean: BeanInfo, disposerMethod: MethodInfo, disposedType: JType)

  datatype ObserverInfo = ObserverInfo(declaringBean: BeanInfo, observerMethod: MethodInfo)

  datatype InterceptorInfo = InterceptorInfo(interceptorClass: ClassInfo)

  /** The typesafe resolver; only its type-matching rule is used here. */
  datatype BeanResolver = BeanResolver(matches: (JType, JType) -> bool)

  /** The interceptor resolver, built over the finished interceptor list. */
  datatype InterceptorResolver = InterceptorResolver(interceptors: seq<InterceptorInfo>)

  /** A producer bean for a producer method or field target. */
  function ProducerBean(t: Target, declaringBean: BeanInfo, disposer: Option<DisposerInfo>): (b: BeanInfo)
    requires t.MethodTarget? || t.FieldTarget?
    ensures b.IsProducer() && b.Producer() == t
    ensures b.declaringBean == declaringBean && b.disposer == disposer
  {
    if t.MethodTarget? then ProducerMethodBean(t.methodInfo, declaringBean, disposer)
    else ProducerFieldBean(t.fieldInfo, declaringBean, disposer)
  }

  /**
   * Code outside this model, as functions of their inputs:
   * `scopes` is the list of built-in scopes, `scopeFrom` looks a scope up by
   * annotation name, `hasQualifier` is the qualifier check of the disposer
   * matcher, `typeMatches` the resolver's type-matching rule, and
   * `disposedType` the type of a disposer method's disposed parameter.
   */
  datatype Collaborators = Collaborators(
    scopes: seq<ScopeInfo>,
    scopeFrom: Name -> Option<ScopeInfo>,
    hasQualifier: (ClassInfo, Annotation) -> bool,
    typeMatches: (JType, JType) -> bool,
    disposedType: MethodInfo -> JType)

  /** A transformer applied to the annotations of a target. */
  type Transformer = (Target, seq<Annotation>) -> seq<Annotation>

  /** What the deployment can throw. */
  datatype DeploymentError =
    | MultipleDisposers(producer: Target)
    | UnsupportedTarget(target: Target)
    | UnsupportedOperation
    | NotAField

  /** What the init pass visits, in order. */
  datatype Component = BeanComponent(bean: BeanInfo) | InterceptorComponent(interceptor: InterceptorInfo)

  predicate Distinct<T(==)>(s: seq<T>) {
    forall i | 0 <= i < |s| :: s[i] !in s[..i]
  }
}
