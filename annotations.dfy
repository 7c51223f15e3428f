/**
 * Annotation retrieval: the direct annotations of a target, folded through
 * the registered transformers in order.
 */
module Annotations {
  import opened Wrappers
  import opened Jandex
  import opened Infos
  import DotNames

  /** Applies the transformers to `anns` one after another, first to last. */
  function Transform(t: Target, anns: seq<Annotation>, transformers: seq<Transformer>): seq<Annotation>
    decreases |transformers|
  {
    if transformers == [] then anns
    else Transform(t, transformers[0](t, anns), transformers[1..])
  }

  /** Running two lists of transformers one after the other is running their concatenation. */
  lemma {:induction false} TransformAppend(t: Target, anns: seq<Annotation>, s1: seq<Transformer>, s2: seq<Transformer>)
    ensures Transform(t, anns, s1 + s2) == Transform(t, Transform(t, anns, s1), s2)
    decreases |s1|
  {
    if s1 != [] {
      assert (s1 + s2)[0] == s1[0];
      assert (s1 + s2)[1..] == s1[1..] + s2;
      TransformAppend(t, s1[0](t, anns), s1[1..], s2);
    } else {
      assert s1 + s2 == s2;
    }
  }

  /** The registered transformers; none registered and an empty list behave alike. */
  function Registered(transformers: Option<seq<Transformer>>): seq<Transformer> {
    if transformers.None? then [] else transformers.value
  }

  /**
   * getAnnotations as the switch is written: only a class gets through. A
   * method falls into the field case, whose `asField()` rejects a method;
   * a field falls into the default case, which throws.
   */
  function AnnotationsAsWritten(t: Target, transformers: Option<seq<Transformer>>): (r: Result<seq<Annotation>, DeploymentError>)
    ensures r.Success? <==> t.ClassTarget?
  {
    match t
    case ClassTarget(c) => Success(Transform(t, c.classAnnotations, Registered(transformers)))
    case MethodTarget(_) => Failure(NotAField)
    case _ => Failure(UnsupportedOperation)
  }

  /** The annotations a class, method or field carries directly. */
  function DirectAnnotations(t: Target): seq<Annotation>
    requires t.ClassTarget? || t.MethodTarget? || t.FieldTarget?
  {
    match t
    case ClassTarget(c) => c.classAnnotations
    case MethodTarget(m) => m.annotations
    case FieldTarget(f) => f.annotations
  }

  /** getAnnotations with each case ending in a break: classes, methods and fields all get through. */
  function AnnotationsIntended(t: Target, transformers: Option<seq<Transformer>>): (r: Result<seq<Annotation>, DeploymentError>)
    ensures r.Success? <==> t.ClassTarget? || t.MethodTarget? || t.FieldTarget?
    ensures r.Success? && Registered(transformers) == [] ==> r.value == DirectAnnotations(t)
  {
    if t.ClassTarget? || t.MethodTarget? || t.FieldTarget? then
      Success(Transform(t, DirectAnnotations(t), Registered(transformers)))
    else Failure(UnsupportedOperation)
  }

  /**
   * The fall-through: for a method or field target the switch as written
   * fails where the intended one returns the element's annotations; on every
   * other target the two give the same result.
   */
  lemma FallThroughRejectsMembers(t: Target, transformers: Option<seq<Transformer>>)
    ensures (t.MethodTarget? || t.FieldTarget?) ==>
              AnnotationsAsWritten(t, transformers).Failure? && AnnotationsIntended(t, transformers).Success?
    ensures !(t.MethodTarget? || t.FieldTarget?) ==>
              AnnotationsAsWritten(t, transformers) == AnnotationsIntended(t, transformers)
  {
  }

  /** A concrete method with one annotation: the switch as written cannot return it. */
  lemma MethodAnnotationsLost()
    ensures var m := MethodInfo("Shop", "create", [], "Order", [Annotation(DotNames.PRODUCES, METHOD, map[])]);
            AnnotationsAsWritten(MethodTarget(m), None) == Failure(NotAField) &&
            AnnotationsIntended(MethodTarget(m), None) == Success(m.annotations)
  {
  }
}
