/** The message shapes shared by the client and the server
    (lib/src/protocol.ts): goals, proof views, the result of a command, and
    the kinds of highlight. */
module Protocol {
  import opened Wrappers
  import opened Positions
  import opened AnnotatedText

  datatype Hypothesis = Hypothesis(identifier: string, relation: string, expression: AnnotatedText)

  datatype Goal = Goal(id: string, hypotheses: seq<Hypothesis>, goal: AnnotatedText)

  /** Subgoals around the focus, and the more-focused background goals. */
  datatype UnfocusedGoalStack = UnfocusedGoalStack(before: seq<Goal>, next: Option<UnfocusedGoalStack>, after: seq<Goal>)

  datatype ProofView = ProofView(
    goals: seq<Goal>, backgroundGoals: Option<UnfocusedGoalStack>,
    shelvedGoals: seq<Goal>, abandonedGoals: seq<Goal>, focus: Position)

  datatype FailValue = FailValue(message: AnnotatedText, range: Option<Range>, sentence: Range)

  datatype NotRunningReason = NotStarted | SpawnFailed

  /** A command's result.  Every kind but `not-running` carries the focus
      (a proof view carries it inside the view); a result that has not yet
      been given one has `None` there. */
  datatype CommandResult =
    | NotRunningResult(reason: NotRunningReason, coqtop: Option<string>)
    | BusyResult(focus: Option<Position>)
    | FailureResult(fail: FailValue, focus: Option<Position>)
    | ProofViewResult(view: ProofView)
    | InterruptedResult(range: Range, focus: Option<Position>)
    | NoProofResult(focus: Option<Position>)

  /** The six highlight lists, in the order of their numeric values. */
  datatype HighlightType = StateError | Parsing | Processing | Incomplete | Processed | Axiom

  /** The enum's numeric value, which indexes the highlight lists. */
  function HighlightIndex(h: HighlightType): (r: nat)
    ensures r < 6
  {
    match h
    case StateError => 0
    case Parsing => 1
    case Processing => 2
    case Incomplete => 3
    case Processed => 4
    case Axiom => 5
  }

  /** Distinct highlight types index distinct lists. */
  lemma HighlightIndexInjective(a: HighlightType, b: HighlightType)
    ensures HighlightIndex(a) == HighlightIndex(b) ==> a == b
  {
  }
}
