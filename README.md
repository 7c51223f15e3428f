# Bean deployment of the Arc build-time processor, in Dafny

This project models `BeanDeployment`, the object in Arc's build-time processor
(the CDI container used by Quarkus, package `org.jboss.protean.arc.processor`)
that builds the container's static metadata from a class index. The
deployment does the following:

- builds the qualifier, interceptor-binding and stereotype registries;
- discovers the interceptors;
- scans the classes carrying a bean-defining annotation for bean classes,
  and for producer, disposer and observer methods and producer fields;
- builds the class beans, disposers, producer beans and observers;
- matches each producer with its disposer, and fails when a producer has
  more than one;
- serves the lookups, including `getAnnotations` and its transformers;
- runs the two-phase `init` pass.

The modules follow the source's own layers:

- `Jandex` holds the index as plain values: classes, methods, fields,
  annotation instances and annotation targets. `DotNames` holds the
  annotation names the deployment looks for, written as strings.
- `Infos` holds the records the deployment builds (`BeanInfo`,
  `DisposerInfo`, `ObserverInfo`, `InterceptorInfo`, `StereotypeInfo`). It
  also holds the `Collaborators` record, which stands for code outside this
  model as functions of their inputs:
  - the list of built-in scopes and the lookup of a scope by name;
  - the qualifier check `Beans.hasQualifier`;
  - the resolver's type-matching rule;
  - the type of a disposer method's disposed parameter.
- `Registries` holds `findQualifiers`, `findInterceptorBindings` and
  `findStereotypes`, each as a method over the index. Each is proved against
  a function that says what the registry holds. The properties of the
  stereotype fold are proved about that function.
- `Discovery` states the scan of `findBeans` on values:
  - the class candidates in scan order;
  - which candidates become bean classes;
  - how the members of a bean class are sorted;
  - which disposers a producer selects.

  It also holds the imperative steps of `findBeans` that do not need the
  deployment's state, each proved against those functions.
- `Assembly` states what discovery as a whole promises for a scan, and
  proves that the builders' results add up to it.
- `Annotations` holds the annotation retrieval of `getAnnotations`. It is
  written once as the switch is written, and once as it was evidently
  meant (see Findings).
- `Deployment` holds the class `BeanDeployment` with the source's fields.
  Java's constructor is split into the following steps; `Create` returns
  `Failure` where the Java constructor throws:

  | step | source lines | what it does |
  |---|---|---|
  | `Prepare` | :61-67 | builds the registries, the interceptors and the bean resolver |
  | `DiscoverBeans` | :69 | runs `findBeans` |
  | `Finish` | :69-72 | makes the remaining assignments |
  | `Create` | — | the whole constructor |

  `Valid()` states what a built deployment holds. `Init` visits every bean,
  then every interceptor. Each visit is recorded as a `Component`.

Java's hash sets and hash maps are iterated in an order the model does not
know. Every loop over one of them is modelled as a choice of any remaining
element. Contracts over them state membership, distinctness and counts. They
state no order.

## Model

The source of every row is `ext/arc/processor/src/main/java/org/jboss/protean/arc/processor/BeanDeployment.java`.

| member | source | states |
|---|---|---|
| Registries.ClassesByName | ext/arc/processor/src/main/java/org/jboss/protean/arc/processor/BeanDeployment.java:146-150 | the map holds exactly the names of the given target classes, each mapped to the last class of that name; a later put replaces an earlier one |
| Registries.FindQualifiers | ext/arc/processor/src/main/java/org/jboss/protean/arc/processor/BeanDeployment.java:145-151 | the qualifier registry holds exactly the names of the classes annotated @Qualifier, each mapped to the last such class of that name |
| Registries.FindInterceptorBindings | ext/arc/processor/src/main/java/org/jboss/protean/arc/processor/BeanDeployment.java:153-159 | the binding registry holds exactly the names of the classes annotated @InterceptorBinding, each mapped to the last such class of that name |
| Registries.ClassifyStereotype | ext/arc/processor/src/main/java/org/jboss/protean/arc/processor/BeanDeployment.java:167-180 | the loop over a stereotype class's annotations yields the stereotype of the fold: the scope, the bindings and the alternative flag, with the properties the lemmas below give them |
| Registries.FindStereotypes | ext/arc/processor/src/main/java/org/jboss/protean/arc/processor/BeanDeployment.java:161-184 | the registry has an entry exactly for the names of the @Stereotype classes that the index resolves by name; each entry is folded from the resolved class; an unresolved class is skipped |
| Registries.BindingsOfExact | ext/arc/processor/src/main/java/org/jboss/protean/arc/processor/BeanDeployment.java:171-175 | a stereotype's bindings are exactly its class annotations that are not @Alternative and whose name is a registered interceptor binding |
| Registries.BindingsOfAppend | ext/arc/processor/src/main/java/org/jboss/protean/arc/processor/BeanDeployment.java:171-175 | the bindings keep declaration order: the fold over a concatenation is the concatenation of the folds |
| Registries.ScopeOfFirstResolvable | ext/arc/processor/src/main/java/org/jboss/protean/arc/processor/BeanDeployment.java:171-179 | the scope is unset exactly when no candidate annotation names a known scope; otherwise it is the scope named by the first candidate that does. A candidate is an annotation that is neither @Alternative nor a binding |
| Registries.ScopeNeverOverwritten | ext/arc/processor/src/main/java/org/jboss/protean/arc/processor/BeanDeployment.java:176-178 | once the scope is set, no later annotation changes it |
| Discovery.ClassesOfExact | ext/arc/processor/src/main/java/org/jboss/protean/arc/processor/BeanDeployment.java:196-199 | the classes scanned for one annotation are exactly its class targets; other target kinds are skipped, so there are never more candidates than targets |
| Discovery.CandidatesExact | ext/arc/processor/src/main/java/org/jboss/protean/arc/processor/BeanDeployment.java:195-199 | a class is a candidate exactly when it is a class target of one of the bean-defining annotations |
| Discovery.ScanClassifies | ext/arc/processor/src/main/java/org/jboss/protean/arc/processor/BeanDeployment.java:216-224 | a bean-class method is a producer method iff it has @Produces, a disposer method iff it has @Disposes and not @Produces, and an observer method iff it has @Observes and neither of the others; the three sets are pairwise disjoint |
| Discovery.ScanStep | ext/arc/processor/src/main/java/org/jboss/protean/arc/processor/BeanDeployment.java:199-229 | scanning one more candidate always records its name; it adds the class and its sorted members exactly when the name is new and the class is eligible, and otherwise leaves the other five sets unchanged |
| Discovery.SortMethods | ext/arc/processor/src/main/java/org/jboss/protean/arc/processor/BeanDeployment.java:216-224 | the loop adds to each method set exactly the class's methods of that role |
| Discovery.AddProducerFields | ext/arc/processor/src/main/java/org/jboss/protean/arc/processor/BeanDeployment.java:225-229 | the loop adds exactly the class's fields annotated @Produces |
| Discovery.VisitCandidate | ext/arc/processor/src/main/java/org/jboss/protean/arc/processor/BeanDeployment.java:199-229 | visiting a candidate turns the scan state of the candidates seen so far into the scan state of those candidates plus this one |
| Discovery.BeanClassesCharacterized | ext/arc/processor/src/main/java/org/jboss/protean/arc/processor/BeanDeployment.java:199-214 | a class is a bean class iff it is a candidate, no earlier candidate has its name, it has no @Interceptor anywhere, and it is not an interface, anonymous, local or non-static inner class |
| Discovery.BeanClassNamesUnique | ext/arc/processor/src/main/java/org/jboss/protean/arc/processor/BeanDeployment.java:200-202 | no two bean classes share a name, so a class carrying several bean-defining annotations yields one bean class |
| Discovery.IneligibleFirstShadows | ext/arc/processor/src/main/java/org/jboss/protean/arc/processor/BeanDeployment.java:200-213 | the name is recorded before the filters run: if the first candidate of a name is filtered out, no class of that name becomes a bean class |
| Discovery.BeanClassesSubset | ext/arc/processor/src/main/java/org/jboss/protean/arc/processor/BeanDeployment.java:204-214 | every bean class is a candidate and passes both filters |
| Discovery.SelectedDisposersExact | ext/arc/processor/src/main/java/org/jboss/protean/arc/processor/BeanDeployment.java:294-307 | the disposers found for a producer are exactly the listed disposers that meet three conditions: declared on the same bean, every producer qualifier passes the qualifier check, and the produced type matches the disposed type |
| Discovery.SelectedDisposersDistinct | ext/arc/processor/src/main/java/org/jboss/protean/arc/processor/BeanDeployment.java:294-307 | over a list without repetitions, the found list has no repetitions |
| Discovery.SelectionCount | ext/arc/processor/src/main/java/org/jboss/protean/arc/processor/BeanDeployment.java:308-311 | more than one disposer is found iff two different disposers are selected; a single found disposer is the only one selected; none found means none selected |
| Discovery.BuildClassBeans | ext/arc/processor/src/main/java/org/jboss/protean/arc/processor/BeanDeployment.java:235-241 | one class bean per bean class, without repetitions and nothing else; the map takes each bean class name to its class bean |
| Discovery.BuildDisposers | ext/arc/processor/src/main/java/org/jboss/protean/arc/processor/BeanDeployment.java:243-249 | one disposer for each disposer method whose declaring class has a bean, built on that bean; methods of other classes are dropped |
| Discovery.BuildObservers | ext/arc/processor/src/main/java/org/jboss/protean/arc/processor/BeanDeployment.java:265-270 | one observer for each observer method whose declaring class has a bean, declared on that bean; methods of other classes are dropped |
| Discovery.ChosenFromList | ext/arc/processor/src/main/java/org/jboss/protean/arc/processor/BeanDeployment.java:294-311 | the matcher fails exactly when two different disposers are selected; otherwise the producer bean carries the one disposer it selects, or none if it selects none |
| Discovery.DisposerListMatchesSet | ext/arc/processor/src/main/java/org/jboss/protean/arc/processor/BeanDeployment.java:243-249 | the built disposer list holds exactly the disposers of the collected disposer methods declared on bean classes |
| Annotations.TransformAppend | ext/arc/processor/src/main/java/org/jboss/protean/arc/processor/BeanDeployment.java:128-130 | transformers run in registration order: running two lists one after the other equals running their concatenation |
| Annotations.AnnotationsAsWritten | ext/arc/processor/src/main/java/org/jboss/protean/arc/processor/BeanDeployment.java:112-124 | as the switch is written, a target's annotations are returned iff it is a class |
| Annotations.AnnotationsIntended | ext/arc/processor/src/main/java/org/jboss/protean/arc/processor/BeanDeployment.java:112-132 | with a break after each case, a target's annotations are returned iff it is a class, method or field; without transformers they are its own direct annotations |
| Annotations.FallThroughRejectsMembers | ext/arc/processor/src/main/java/org/jboss/protean/arc/processor/BeanDeployment.java:118-123 | on every method or field target the written switch fails where the intended one succeeds; on every other target the two succeed alike |
| Annotations.MethodAnnotationsLost | ext/arc/processor/src/main/java/org/jboss/protean/arc/processor/BeanDeployment.java:118-121 | a concrete producer method: the written switch returns the "not a field" failure, while the intended one returns its annotations |
| Assembly.OverloadedIsAmbiguous | ext/arc/processor/src/main/java/org/jboss/protean/arc/processor/BeanDeployment.java:294-311 | over the built disposer list, a producer finds more than one disposer iff its declaring class is a bean class and two different disposers of the scan are selected for it |
| Assembly.OverloadedWitness | ext/arc/processor/src/main/java/org/jboss/protean/arc/processor/BeanDeployment.java:251-263 | a collected producer that finds more than one disposer is an ambiguous producer of the scan |
| Assembly.ProducersTranslate | ext/arc/processor/src/main/java/org/jboss/protean/arc/processor/BeanDeployment.java:251-263 | if no producer is overloaded, the producer beans hold one bean per collected producer declared on a bean class, with no repetitions; each bean is declared on that class bean and carries the disposer it selects |
| Assembly.ProducersConcat | ext/arc/processor/src/main/java/org/jboss/protean/arc/processor/BeanDeployment.java:251-263 | producer-method beans followed by producer-field beans are the producer beans of both sets, with every method bean before every field bean |
| Assembly.DiscoveredFromParts | ext/arc/processor/src/main/java/org/jboss/protean/arc/processor/BeanDeployment.java:235-270 | class beans, then producer-method beans, then producer-field beans, plus the observers, are everything discovery promises for the scan; when no producer failed, no producer of the scan is ambiguous |
| Assembly.ObserversTranslate | ext/arc/processor/src/main/java/org/jboss/protean/arc/processor/BeanDeployment.java:265-270 | the built observers are one per collected observer method declared on a bean class, declared on its class bean |
| Assembly.MethodsUnambiguous | ext/arc/processor/src/main/java/org/jboss/protean/arc/processor/BeanDeployment.java:251-256 | if the producer-method loop finished without finding two disposers for any method, then no producer method of the scan is ambiguous |
| Assembly.NoOrphanMembers | ext/arc/processor/src/main/java/org/jboss/protean/arc/processor/BeanDeployment.java:244-267 | on an index where every listed method and field declares its own class, every collected producer, disposer and observer is declared on a bean class, so the null checks at :246, :253, :260 and :267 never drop anything |
| Assembly.InterceptorsAreNotBeanClasses | ext/arc/processor/src/main/java/org/jboss/protean/arc/processor/BeanDeployment.java:204-207 | on an index where every class carrying @Interceptor lists it among its annotations, no interceptor class found by findInterceptors is also a bean class |
| Deployment.BeanDeployment.Prepare | ext/arc/processor/src/main/java/org/jboss/protean/arc/processor/BeanDeployment.java:58-67 | the qualifier, binding and stereotype registries and the interceptors are built before the bean resolver, and nothing is discovered yet |
| Deployment.BeanDeployment.Create | ext/arc/processor/src/main/java/org/jboss/protean/arc/processor/BeanDeployment.java:58-74 | a built deployment is valid, keeps the index and the transformers, has not been initialized, and ran discovery over the bean-defining list; construction fails only with "multiple disposers" |
| Deployment.BeanDeployment.DiscoverBeans | ext/arc/processor/src/main/java/org/jboss/protean/arc/processor/BeanDeployment.java:69 | discovery runs over the bean-defining list built from the stereotypes just found, and succeeds with what discovery promises for that list |
| Deployment.BeanDeployment.Finish | ext/arc/processor/src/main/java/org/jboss/protean/arc/processor/BeanDeployment.java:69-72 | after the beans, observers, interceptor resolver and transformers are assigned, the deployment is valid; the interceptor resolver is built over the final interceptor list |
| Deployment.BeanDeployment.FindInterceptors | ext/arc/processor/src/main/java/org/jboss/protean/arc/processor/BeanDeployment.java:314-331 | one interceptor per distinct class annotated @Interceptor, and no other; non-class targets are skipped |
| Deployment.BeanDeployment.InitBeanDefiningAnnotations | ext/arc/processor/src/main/java/org/jboss/protean/arc/processor/BeanDeployment.java:333-344 | the list is: the built-in scope names in order, then the additional names if given, then each stereotype name exactly once, then @Model |
| Deployment.BeanDeployment.CollectBeanClasses | ext/arc/processor/src/main/java/org/jboss/protean/arc/processor/BeanDeployment.java:186-232 | the scan loops leave the processed names, bean classes and member sets that the scan of the candidates specifies |
| Deployment.BeanDeployment.QualifiersSatisfied | ext/arc/processor/src/main/java/org/jboss/protean/arc/processor/BeanDeployment.java:296-301 | true iff every producer qualifier passes the qualifier check against its registered qualifier class |
| Deployment.BeanDeployment.FindDisposer | ext/arc/processor/src/main/java/org/jboss/protean/arc/processor/BeanDeployment.java:280-312 | a target that is not a method or field is rejected; otherwise it fails with "multiple disposers" iff more than one disposer is selected, and else returns the first selected disposer, or none |
| Deployment.BeanDeployment.AddProducerBeans | ext/arc/processor/src/main/java/org/jboss/protean/arc/processor/BeanDeployment.java:251-263 | the loop fails iff some producer is overloaded, naming one such producer; on success it holds exactly one producer bean per producer declared on a bean class, each with its disposer |
| Deployment.BeanDeployment.FindBeans | ext/arc/processor/src/main/java/org/jboss/protean/arc/processor/BeanDeployment.java:186-278 | fails iff some collected producer on a bean class selects two different disposers, and then names such a producer, which is a producer method whenever some producer method is ambiguous, because the method loop runs first; otherwise yields the class beans, then the producer-method beans, then the producer-field beans, and the observers, as specified for the scan |
| Deployment.BeanDeployment.GetAnnotations | ext/arc/processor/src/main/java/org/jboss/protean/arc/processor/BeanDeployment.java:112-132 | behaves as the switch is written: a class's annotations folded through the registered transformers in order; every other target fails |
| Deployment.BeanDeployment.Init | ext/arc/processor/src/main/java/org/jboss/protean/arc/processor/BeanDeployment.java:134-143 | every bean is visited, in list order, then every interceptor, in list order; earlier visits are kept |
| Deployment.BeanDeployment.GetQualifier | ext/arc/processor/src/main/java/org/jboss/protean/arc/processor/BeanDeployment.java:100-102 | on a built deployment, a name has a qualifier iff some class of that name is annotated @Qualifier, and the result is the last such class |
| Deployment.BeanDeployment.GetInterceptorBinding | ext/arc/processor/src/main/java/org/jboss/protean/arc/processor/BeanDeployment.java:104-106 | on a built deployment, a name has a binding iff some class of that name is annotated @InterceptorBinding, and the result is the last such class |
| Deployment.BeanDeployment.GetStereotype | ext/arc/processor/src/main/java/org/jboss/protean/arc/processor/BeanDeployment.java:108-110 | on a built deployment, a name has a stereotype iff a @Stereotype class of that name resolves in the index, and the result is that class folded |

## Left out

- Logging, timing (`System.currentTimeMillis`) and the debug listing of created beans and interceptors are left out: they do not affect the result.
- The construction of the index and its internals are left out. Targets, classes, methods and fields are values.
- `ClassInfo.annotations()` is the set `annotationNames`. The `Modifier` tests on a class's flags are booleans.
- The internals of collaborators are not part of this model. Each is a field of `Collaborators`, as a function of its inputs:
  - `Beans.createClassBean`, `createProducerMethod` and `createProducerField` become plain records;
  - `Injection.forDisposer` is reduced to the disposed parameter's type;
  - `Injection.forObserver` is dropped;
  - `Interceptors.createInterceptor` becomes a plain record;
  - `ScopeInfo.from` and `ScopeInfo.values` become `scopeFrom` and `scopes`;
  - `BeanResolver.matches` becomes `typeMatches`;
  - `Beans.hasQualifier` becomes `hasQualifier`.
- The qualifier check is a collaborator, so qualifier member values are not interpreted.
- `BeanInfo.init` and `InterceptorInfo.init` are not part of this model. `Init` records the visit of each component, in order.
- Interceptor bindings are not made transitive (the TODO at :63). Neither is the source.
- Deployment.BeanDeployment.FindInterceptors: states membership and distinctness but not order. The source iterates a hash set.
- Discovery.BuildClassBeans: states membership and distinctness but not order. The source iterates a hash set.
- Discovery.BuildDisposers: states membership and distinctness but not order. The source iterates a hash set.
- Discovery.BuildObservers: states membership and distinctness but not order. The source iterates a hash set.
- Deployment.BeanDeployment.AddProducerBeans: states membership and distinctness but not order. The source iterates a hash set.
- Deployment.BeanDeployment.InitBeanDefiningAnnotations: states no order among the stereotype names. They come from a hash map's key set.
- Deployment.BeanDeployment.AddProducerBeans: when several producers are ambiguous, it does not say which one the failure names. That depends on hash order.
- Deployment.BeanDeployment.FindBeans: when several producers are ambiguous, it does not say which one the failure names. It does say that the failure names a producer method whenever some producer method is ambiguous. Which method, or which field, depends on hash order.
- Registries.FindQualifiers: requires every @Qualifier target to be a class. The annotation is meta-annotated for annotation types only, so the compiler never puts it elsewhere. The exception `asClass()` would throw on another target is not modelled.
- Registries.FindInterceptorBindings: requires every @InterceptorBinding target to be a class, for the same reason.
- Registries.FindStereotypes: requires every @Stereotype target to be a class, for the same reason.
- Deployment.BeanDeployment.Prepare: requires the index to meet the same condition.
- Deployment.BeanDeployment.Create: requires the index to meet the same condition.
- Deployment.BeanDeployment.Create: its failure case states only that the error is "multiple disposers". The exact condition is the one FindBeans states.
- Deployment.BeanDeployment.DiscoverBeans: its failure case states only that the error is "multiple disposers". The exact condition is the one FindBeans states.
- Jandex lists each class's own members and records `Interceptor` among the annotations of a class that carries it. The model does not assume these facts. They are the conditions of Assembly.NoOrphanMembers and Assembly.InterceptorsAreNotBeanClasses, which show what they rule out.
- `beanClassToBean` is keyed by class name, not by `ClassInfo`. Bean class names are unique (Discovery.BeanClassNamesUnique), so the lookups agree.
- Exceptions are `Failure` values of `DeploymentError`:
  - `DefinitionException` is `MultipleDisposers`;
  - the `RuntimeException` for an unsupported target is `UnsupportedTarget`;
  - `UnsupportedOperationException` is `UnsupportedOperation`;
  - the exception from `asField()` on a method is `NotAField`.
- `getBeans`, `getObservers`, `getInterceptors`, `getIndex`, `getBeanResolver` and `getInterceptorResolver` are plain field reads. They have no contract of their own. What they return is stated by `Valid()` and by `Create`.
- The resolvers are records. `BeanResolver` keeps only its type-matching rule; `InterceptorResolver` keeps only the interceptor list.

## Findings

| source | as written | input that shows it | evidently intended | confidence | as-written member | corrected member |
|---|---|---|---|---|---|---|
| ext/arc/processor/src/main/java/org/jboss/protean/arc/processor/BeanDeployment.java:118-123 | the METHOD and FIELD cases of the switch in `getAnnotations` have no `break`. A method runs on into `asField()`, which throws. A field runs on into `default`, which throws `UnsupportedOperationException`. So only a class's annotations are ever returned | a method target for `Shop.create` annotated `@Produces`: the written switch fails with "not a field" instead of returning `[@Produces]` | a `break` after each case, so that methods and fields return their own annotations, folded through the transformers | not executed | Annotations.AnnotationsAsWritten, with Annotations.MethodAnnotationsLost and Annotations.FallThroughRejectsMembers | Annotations.AnnotationsIntended |

`Deployment.BeanDeployment.GetAnnotations` keeps the behaviour as written,
because it models what the deployment object does. Nothing else in this core
calls `getAnnotations`. The corrected definition stands beside it with its
own properties proved.
