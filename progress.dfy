/** The progress indicator (src/App.jsx getCurrentStep), derived from the screen flags. */
module Progress {

  const TotalSteps := 6

  /** The flags `getCurrentStep` reads, each as JavaScript truthiness. */
  datatype Flags = Flags(
    learningSummary: bool,
    hasFeedback: bool,
    finalCheck: bool,
    budgetWarning: bool,
    hasOptions: bool,
    loading: bool,
    criteriaSelection: bool)

  /** Nothing beyond the item-entry form is active. */
  predicate AtStart(f: Flags)
  {
    !(f.learningSummary || f.hasFeedback || f.finalCheck || f.budgetWarning
      || f.hasOptions || f.loading || f.criteriaSelection)
  }

  /** A popup of the final choice or the learning summary is open. */
  predicate Deciding(f: Flags)
  {
    f.learningSummary || f.hasFeedback || f.finalCheck || f.budgetWarning
  }

  /**
   * The step shown: later phases take priority over earlier ones, and the
   * bar is hidden (step 1) exactly when nothing is active.
   */
  function CurrentStep(f: Flags): (step: int)
    ensures 1 <= step <= TotalSteps
    ensures step == 6 <==> f.learningSummary || f.hasFeedback
    ensures step == 5 <==> !(f.learningSummary || f.hasFeedback) && (f.finalCheck || f.budgetWarning)
    ensures step == 4 <==> !Deciding(f) && f.hasOptions
    ensures step == 3 <==> !Deciding(f) && !f.hasOptions && f.loading && f.criteriaSelection
    ensures step == 2 <==> !Deciding(f) && !f.hasOptions && (f.loading != f.criteriaSelection)
    ensures step == 1 <==> AtStart(f)
  {
    if f.learningSummary || f.hasFeedback then 6
    else if f.finalCheck || f.budgetWarning then 5
    else if f.hasOptions then 4
    else if f.loading then (if f.criteriaSelection then 3 else 2)
    else if f.criteriaSelection then 2
    else 1
  }
}
