/** The recursive display text the prover returns (goals, messages), and the
    two order-preserving folds that turn it into a string
    (lib/src/AnnotatedText.ts). */
module AnnotatedText {
  import opened Wrappers

  datatype TextDifference = Added | Removed

  /** A plain string, an annotation over a string, a scope around further text,
      or a flat array of these.  The TypeScript type forbids an array directly
      inside an array; the folds treat such nesting uniformly, so the model
      allows it. */
  datatype AnnotatedText =
    | Plain(s: string)
    | Annotation(text: string, diff: Option<TextDifference>, substitution: Option<string>)
    | Scoped(scope: string, attributes: map<string, string>, inner: AnnotatedText)
    | Items(items: seq<AnnotatedText>)

  /** Whether the JavaScript value has an own `scope` property. */
  predicate HasScopeField(t: AnnotatedText)
  {
    t.Scoped?
  }

  /** Whether `typeof t.text === 'string'` holds of the JavaScript value:
      annotations, and scoped texts whose inner text is a plain string. */
  predicate HasStringTextField(t: AnnotatedText)
  {
    t.Annotation? || (t.Scoped? && t.inner.Plain?)
  }

  predicate IsScopedText(t: AnnotatedText)
  {
    HasScopeField(t)
  }

  predicate IsTextAnnotation(t: AnnotatedText)
  {
    HasStringTextField(t) && !HasScopeField(t)
  }

  /** The two type guards never both hold, and a value passes `IsTextAnnotation`
      exactly when it is an annotation. */
  lemma GuardsExclusive(t: AnnotatedText)
    ensures !(IsScopedText(t) && IsTextAnnotation(t))
    ensures IsTextAnnotation(t) <==> t.Annotation?
    ensures IsScopedText(t) <==> t.Scoped?
  {
  }

  /** `[...].join('')`. */
  function Join(parts: seq<string>): (r: string)
    decreases |parts|
  {
    if parts == [] then [] else parts[0] + Join(parts[1..])
  }

  /** Joining distributes over concatenation. */
  lemma {:induction false} JoinAppend(a: seq<string>, b: seq<string>)
    ensures Join(a + b) == Join(a) + Join(b)
    decreases |a|
  {
    if a == [] {
      assert a + b == b;
    } else {
      assert (a + b)[1..] == a[1..] + b;
      JoinAppend(a[1..], b);
    }
  }

  /** `textToString`: scope, attributes, diff and substitution are ignored. */
  function TextToString(t: AnnotatedText): string
    decreases t
  {
    match t
    case Plain(s) => s
    case Items(xs) => Join(seq(|xs|, i requires 0 <= i < |xs| => TextToString(xs[i])))
    case Scoped(_, _, inner) => TextToString(inner)
    case Annotation(text, _, _) => text
  }

  /** The substitution an annotation carries, if it is truthy in JavaScript
      (present and non-empty). */
  predicate HasSubstitution(t: AnnotatedText)
    requires t.Annotation?
  {
    t.substitution.Some? && t.substitution.value != []
  }

  /** `textToDisplayString`: like the plain fold, but a truthy substitution
      replaces the annotation's own text. */
  function TextToDisplayString(t: AnnotatedText): string
    decreases t
  {
    match t
    case Plain(s) => s
    case Items(xs) => Join(seq(|xs|, i requires 0 <= i < |xs| => TextToDisplayString(xs[i])))
    case Scoped(_, _, inner) => TextToDisplayString(inner)
    case Annotation(text, _, sub) =>
      if sub.Some? && sub.value != [] then sub.value else text
  }

  /** True when no annotation inside `t` carries a truthy substitution. */
  predicate NoSubstitutions(t: AnnotatedText)
    decreases t
  {
    match t
    case Plain(_) => true
    case Items(xs) => forall i :: 0 <= i < |xs| ==> NoSubstitutions(xs[i])
    case Scoped(_, _, inner) => NoSubstitutions(inner)
    case Annotation(_, _, _) => !HasSubstitution(t)
  }

  /** Applies every truthy substitution: each annotation carrying one becomes
      the plain substitution string. */
  function Substituted(t: AnnotatedText): AnnotatedText
    decreases t
  {
    match t
    case Plain(_) => t
    case Items(xs) => Items(seq(|xs|, i requires 0 <= i < |xs| => Substituted(xs[i])))
    case Scoped(sc, attrs, inner) => Scoped(sc, attrs, Substituted(inner))
    case Annotation(text, _, sub) =>
      if HasSubstitution(t) then Plain(sub.value) else t
  }

  /** Where nothing is substituted, the display fold and the plain fold agree. */
  lemma {:induction false} DisplayEqualsPlainWithoutSubstitutions(t: AnnotatedText)
    requires NoSubstitutions(t)
    ensures TextToDisplayString(t) == TextToString(t)
    decreases t
  {
    match t
    case Plain(_) =>
    case Annotation(_, _, _) =>
    case Scoped(_, _, inner) =>
      DisplayEqualsPlainWithoutSubstitutions(inner);
    case Items(xs) =>
      forall i | 0 <= i < |xs|
        ensures TextToDisplayString(xs[i]) == TextToString(xs[i])
      {
        DisplayEqualsPlainWithoutSubstitutions(xs[i]);
      }
      assert seq(|xs|, i requires 0 <= i < |xs| => TextToDisplayString(xs[i]))
          == seq(|xs|, i requires 0 <= i < |xs| => TextToString(xs[i]));
  }

  /** Substitution wins: the display fold is the plain fold of the text with
      every truthy substitution applied, so a substituted annotation
      contributes its substitution and never its own text. */
  lemma {:induction false} DisplayIsPlainOfSubstituted(t: AnnotatedText)
    ensures TextToDisplayString(t) == TextToString(Substituted(t))
    ensures NoSubstitutions(Substituted(t))
    decreases t
  {
    match t
    case Plain(_) =>
    case Annotation(_, _, _) =>
    case Scoped(_, _, inner) =>
      DisplayIsPlainOfSubstituted(inner);
    case Items(xs) =>
      var ys := seq(|xs|, i requires 0 <= i < |xs| => Substituted(xs[i]));
      forall i | 0 <= i < |xs|
        ensures TextToDisplayString(xs[i]) == TextToString(ys[i])
        ensures NoSubstitutions(ys[i])
      {
        DisplayIsPlainOfSubstituted(xs[i]);
      }
      assert seq(|xs|, i requires 0 <= i < |xs| => TextToDisplayString(xs[i]))
          == seq(|ys|, i requires 0 <= i < |ys| => TextToString(ys[i]));
  }

  /** An annotation with a truthy substitution displays as exactly that
      substitution; an empty substitution counts as absent. */
  lemma SubstitutionWins(text: string, diff: Option<TextDifference>, sub: string)
    ensures sub != [] ==> TextToDisplayString(Annotation(text, diff, Some(sub))) == sub
    ensures TextToDisplayString(Annotation(text, diff, Some([]))) == text
    ensures TextToDisplayString(Annotation(text, diff, None)) == text
    ensures TextToString(Annotation(text, diff, Some(sub))) == text
  {
  }

  /** Both folds distribute over array concatenation. */
  lemma {:induction false} FoldsDistribute(a: seq<AnnotatedText>, b: seq<AnnotatedText>)
    ensures TextToString(Items(a + b)) == TextToString(Items(a)) + TextToString(Items(b))
    ensures TextToDisplayString(Items(a + b))
         == TextToDisplayString(Items(a)) + TextToDisplayString(Items(b))
  {
    var ab := a + b;
    var pa := seq(|a|, i requires 0 <= i < |a| => TextToString(a[i]));
    var pb := seq(|b|, i requires 0 <= i < |b| => TextToString(b[i]));
    assert seq(|ab|, i requires 0 <= i < |ab| => TextToString(ab[i])) == pa + pb;
    JoinAppend(pa, pb);
    var da := seq(|a|, i requires 0 <= i < |a| => TextToDisplayString(a[i]));
    var db := seq(|b|, i requires 0 <= i < |b| => TextToDisplayString(b[i]));
    assert seq(|ab|, i requires 0 <= i < |ab| => TextToDisplayString(ab[i])) == da + db;
    JoinAppend(da, db);
  }

  /** Scopes are transparent to both folds, whatever their label and attributes. */
  lemma ScopeTransparent(sc: string, attrs: map<string, string>, inner: AnnotatedText)
    ensures TextToString(Scoped(sc, attrs, inner)) == TextToString(inner)
    ensures TextToDisplayString(Scoped(sc, attrs, inner)) == TextToDisplayString(inner)
  {
  }
}
