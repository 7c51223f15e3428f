/**
 * The read-only class index the deployment is built from. Classes, methods,
 * fields and annotation instances are plain values here; the modifier bit
 * tests on a class are booleans.
 */
module Jandex {
  import opened Wrappers

  /** A fully qualified name (a DotName). */
  type Name = string

  /** A type as written in a signature; only the bean resolver interprets it. */
  type JType = string

  datatype TargetKind = CLASS | FIELD | METHOD | METHOD_PARAMETER | TYPE

  datatype NestingType = TOP_LEVEL | INNER | LOCAL | ANONYMOUS

  /** An annotation instance: its name, the kind of element it sits on, and its member values. */
  datatype Annotation = Annotation(name: Name, targetKind: TargetKind, values: map<Name, string>)

  /**
   * A method. Its annotations include those on its parameters, each with
   * target kind METHOD_PARAMETER, as the index reports them.
   */
  datatype MethodInfo = MethodInfo(
    declaringClass: Name,
    name: Name,
    parameterTypes: seq<JType>,
    returnType: JType,
    annotations: seq<Annotation>)
  {
    predicate HasAnnotation(n: Name) {
      exists a :: a in annotations && a.name == n
    }
  }

  datatype FieldInfo = FieldInfo(
    declaringClass: Name,
    name: Name,
    fieldType: JType,
    annotations: seq<Annotation>)
  {
    predicate HasAnnotation(n: Name) {
      exists a :: a in annotations && a.name == n
    }
  }

  /**
   * A class. `classAnnotations` are the annotations on the class itself;
   * `annotationNames` are the names of every annotation anywhere in the class
   * (on the class, its members and their parameters).
   */
  datatype ClassInfo = ClassInfo(
    name: Name,
    classAnnotations: seq<Annotation>,
    annotationNames: set<Name>,
    nesting: NestingType,
    isStatic: bool,
    isInterface: bool,
    methods: seq<MethodInfo>,
    fields: seq<FieldInfo>)

  /** The element an annotation instance in the index is attached to. */
  datatype Target =
    | ClassTarget(cls: ClassInfo)
    | MethodTarget(methodInfo: MethodInfo)
    | FieldTarget(fieldInfo: FieldInfo)
    | ParameterTarget(owner: MethodInfo, position: nat)
    | TypeTarget(annotatedType: JType)
  {
    function Kind(): TargetKind {
      match this
      case ClassTarget(_) => CLASS
      case MethodTarget(_) => METHOD
      case FieldTarget(_) => FIELD
      case ParameterTarget(_, _) => METHOD_PARAMETER
      case TypeTarget(_) => TYPE
    }

    /** The class that declares a member target. */
    function DeclaringClass(): Name
      requires MethodTarget? || FieldTarget?
    {
      if MethodTarget? then methodInfo.declaringClass else fieldInfo.declaringClass
    }
  }

  /**
   * The index: for each annotation name the targets carrying it, in the
   * index's order, and the classes by name.
   */
  datatype Index = Index(annotations: map<Name, seq<Target>>, classes: map<Name, ClassInfo>) {

    function GetAnnotations(n: Name): seq<Target> {
      if n in annotations then annotations[n] else []
    }

    function GetClassByName(n: Name): Option<ClassInfo> {
      if n in classes then Some(classes[n]) else None
    }
  }

  /** The index lists a class's own members: each method and field declares that class. */
  predicate MembersDeclared(c: ClassInfo) {
    && (forall m | m in c.methods :: m.declaringClass == c.name)
    && (forall f | f in c.fields :: f.declaringClass == c.name)
  }

  /** Every target is a class; `asClass()` is only defined on those. */
  predicate ClassTargetsOnly(ts: seq<Target>) {
    forall t | t in ts :: t.ClassTarget?
  }
}
