/** The client's own copy of the annotated-text guards and folds
    (client/src/AnnotatedText.ts), over the same datatype. */
module ClientAnnotatedText {
  import opened AnnotatedText
  import Lib = AnnotatedText

  /** `isScopedText`: an own `scope` property. */
  predicate IsScopedText(t: AnnotatedText)
  {
    HasScopeField(t)
  }

  /** `isTextAnnotation`: only `typeof text.text === 'string'`; unlike the
      library guard, a scoped text is not excluded. */
  predicate IsTextAnnotation(t: AnnotatedText)
  {
    HasStringTextField(t)
  }

  /** Exactly the scoped texts whose inner text is a plain string pass both
      client guards, and the library guard refuses all of them. */
  lemma GuardsOverlap(t: AnnotatedText)
    ensures IsScopedText(t) && IsTextAnnotation(t) <==> t.Scoped? && t.inner.Plain?
    ensures IsScopedText(t) && IsTextAnnotation(t) ==> !Lib.IsTextAnnotation(t)
    ensures Lib.IsTextAnnotation(t) ==> IsTextAnnotation(t)
  {
  }

  function TextToString(t: AnnotatedText): string
    decreases t
  {
    match t
    case Plain(s) => s
    case Items(xs) => Join(seq(|xs|, i requires 0 <= i < |xs| => TextToString(xs[i])))
    case Scoped(_, _, inner) => TextToString(inner)
    case Annotation(text, _, _) => text
  }

  function TextToDisplayString(t: AnnotatedText): string
    decreases t
  {
    match t
    case Plain(s) => s
    case Items(xs) => Join(seq(|xs|, i requires 0 <= i < |xs| => TextToDisplayString(xs[i])))
    case Scoped(_, _, inner) => TextToDisplayString(inner)
    case Annotation(text, _, sub) =>
      if sub.Some? && sub.value != [] then sub.value else text
  }

  /** On every input the client folds compute what the library folds compute. */
  lemma {:induction false} SameAsLibrary(t: AnnotatedText)
    ensures TextToString(t) == Lib.TextToString(t)
    ensures TextToDisplayString(t) == Lib.TextToDisplayString(t)
    decreases t
  {
    match t
    case Plain(_) =>
    case Annotation(_, _, _) =>
    case Scoped(_, _, inner) =>
      SameAsLibrary(inner);
    case Items(xs) =>
      forall i | 0 <= i < |xs|
        ensures TextToString(xs[i]) == Lib.TextToString(xs[i])
        ensures TextToDisplayString(xs[i]) == Lib.TextToDisplayString(xs[i])
      {
        SameAsLibrary(xs[i]);
      }
      assert seq(|xs|, i requires 0 <= i < |xs| => TextToString(xs[i]))
          == seq(|xs|, i requires 0 <= i < |xs| => Lib.TextToString(xs[i]));
      assert seq(|xs|, i requires 0 <= i < |xs| => TextToDisplayString(xs[i]))
          == seq(|xs|, i requires 0 <= i < |xs| => Lib.TextToDisplayString(xs[i]));
  }
}
