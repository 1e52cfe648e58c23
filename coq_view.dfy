/** The pure helpers of the goal view (client/src/CoqView.ts): which kind
    of display a command result calls for, how many goals it holds, and
    which editor column the view moves to. */
module CoqView {
  import opened Wrappers
  import opened Protocol

  datatype DisplayState = Proof | Top | Error

  /** `getDisplayState`. */
  function GetDisplayState(state: CommandResult): (r: DisplayState)
    ensures r == Error <==> state.FailureResult? || state.InterruptedResult?
    ensures r == Proof <==> state.ProofViewResult?
    ensures r == Top <==> state.NoProofResult? || state.NotRunningResult? || state.BusyResult?
  {
    match state
    case FailureResult(_, _) => Error
    case ProofViewResult(_) => Proof
    case InterruptedResult(_, _) => Error
    case NoProofResult(_) => Top
    case NotRunningResult(_, _) => Top
    case BusyResult(_) => Top
  }

  /** Every goal of an unfocused stack, outermost level first: the goals
      before the focus, the more-focused levels, then the goals after. */
  function UnfocusedGoals(u: Option<UnfocusedGoalStack>): seq<Goal>
    decreases u
  {
    match u
    case None => []
    case Some(s) => s.before + UnfocusedGoals(s.next) + s.after
  }

  /** `countUnfocusedGoalStack`. */
  function CountUnfocusedGoalStack(u: Option<UnfocusedGoalStack>): (r: nat)
    ensures u.None? ==> r == 0
    ensures u.Some? ==> r >= |u.value.before| + |u.value.after|
    decreases u
  {
    match u
    case None => 0
    case Some(s) => |s.before| + |s.after| + CountUnfocusedGoalStack(s.next)
  }

  /** The count is the number of goals on every level of the stack. */
  lemma {:induction false} CountUnfocusedIsAllLevels(u: Option<UnfocusedGoalStack>)
    ensures CountUnfocusedGoalStack(u) == |UnfocusedGoals(u)|
    decreases u
  {
    match u
    case None =>
    case Some(s) =>
      CountUnfocusedIsAllLevels(s.next);
  }

  /** `countAllGoals`. */
  function CountAllGoals(state: CommandResult): (r: nat)
    ensures !state.ProofViewResult? ==> r == 0
    ensures state.ProofViewResult? ==>
      r >= |state.view.goals| + |state.view.abandonedGoals| + |state.view.shelvedGoals|
  {
    if state.ProofViewResult? then
      var v := state.view;
      |v.goals| + CountUnfocusedGoalStack(v.backgroundGoals) + |v.abandonedGoals| + |v.shelvedGoals|
    else 0
  }

  /** A proof view's count is the size of all its goal lists together. */
  lemma CountAllGoalsIsAllLists(v: ProofView)
    ensures CountAllGoals(ProofViewResult(v))
         == |v.goals + UnfocusedGoals(v.backgroundGoals) + v.abandonedGoals + v.shelvedGoals|
  {
    CountUnfocusedIsAllLevels(v.backgroundGoals);
  }

  /** Editor columns as their numeric values: One is 1, Two is 2, Three is
      3; the other values (Active, Beside, Four and up) are other ints. */
  type ViewColumn = int
  const One: ViewColumn := 1
  const Two: ViewColumn := 2
  const Three: ViewColumn := 3

  /** `adjacentPane`. */
  function AdjacentPane(pane: ViewColumn): (r: ViewColumn)
    ensures r in {One, Two, Three}
    ensures pane == One ==> r == Two
    ensures pane == Two ==> r == Three
    ensures pane != One && pane != Two ==> r == One
  {
    if pane == One then Two
    else if pane == Two then Three
    else One
  }

  /** Moving three times returns to the first three columns' start, and
      from then on cycles with period 3. */
  lemma AdjacentPaneCycles(pane: ViewColumn)
    ensures pane in {One, Two, Three} ==> AdjacentPane(AdjacentPane(AdjacentPane(pane))) == pane
    ensures pane in {One, Two, Three} ==> AdjacentPane(pane) != pane
  {
  }
}
