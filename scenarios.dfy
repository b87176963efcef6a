/**
 * Sessions driven through several handlers in a row, as a student would
 * click through the screens.
 */
module Scenarios {
  import opened Wrappers
  import opened Text
  import Budget
  import opened Criteria
  import opened Shop

  /**
   * When the alternatives request fails, the session lands on the item form
   * with an error, not back on the criteria selection.
   */
  method FailedFetchReturnsToItemEntry(s: Session)
    requires s.Valid() && s.AtCriteriaSelection()
    modifies s
    ensures s.Valid() && s.AtItemEntry() && s.error == Some(OptionsFailed)
    ensures s.selectedCriteria == old(s.selectedCriteria) && s.budget == old(s.budget)
  {
    s.FetchOptions();
    s.ReceiveOptions(NotGenerated);
  }

  /** The pencil-case range of 3000 to 8000 won, sixth step drawn: the budget is 8000 won. */
  method PencilCaseBudget() returns (s: Session)
    ensures fresh(s) && s.Valid() && s.AtCriteriaSelection()
    ensures s.budget == 8000 && s.selectedCriteria == [] && s.options.None?
    ensures !s.showFinalCheck && !s.showBudgetWarning && !s.showLearningSummary && !s.showNudge
  {
    s := new Session();
    s.EditItem("필통");
    var sent := s.SubmitItem();
    assert sent by {
      assert TrimStart("필통") == "필통" && TrimEnd("필통") == "필통";
    }
    var range := Budget.Range(Some(3000), Some(8000));
    assert Budget.IsDrawIndex(range, 5);
    s.ReceiveBudget(Budget.Proposed(range), 5, 1);
  }

  /** The first three suggestions have different ids, so toggling them in turn appends each. */
  lemma FirstThreeToggled()
    ensures Toggled(Toggled(Toggled([], Suggested[0]), Suggested[1]), Suggested[2]) == Suggested[..3]
  {
    var a, b, c := Suggested[0], Suggested[1], Suggested[2];
    ToggleAppends([], a);
    assert [] + [a] == [a];
    assert !HasId([a], b.id) by { assert [a][0].id != b.id; }
    ToggleAppends([a], b);
    assert !HasId([a, b], c.id) by { assert [a, b][0].id != c.id && [a, b][1].id != c.id; }
    ToggleAppends([a, b], c);
    assert [a] + [b] == [a, b] && [a, b] + [c] == Suggested[..3];
  }

  /** Clicking the first three suggestions on an empty selection selects them in order. */
  method SelectFirstThree(s: Session)
    requires s.Valid() && s.selectedCriteria == []
    modifies s`selectedCriteria
    ensures s.Valid() && s.selectedCriteria == Suggested[..3]
  {
    FirstThreeToggled();
    s.ToggleCriterion(Suggested[0]);
    s.ToggleCriterion(Suggested[1]);
    s.ToggleCriterion(Suggested[2]);
  }

  /** The three alternatives of the pencil case, at 12000, 7000 and 6500 won. */
  const PencilCaseTrio: Trio :=
    [Alternative("A", 12000, ""), Alternative("B", 7000, ""), Alternative("C", 6500, "")]

  /** The alternatives request succeeds: the scores start at 0, price among them. */
  method OfferAlternatives(s: Session)
    requires s.Valid() && s.selectedCriteria == Suggested[..3]
    modifies s`loading, s`error, s`options, s`showCriteriaSelection, s`ratings
    ensures s.Valid() && s.options == Some(PencilCaseTrio) && !s.loading
    ensures PriceId in s.ratings[0] && s.ratings[0][PriceId] == 0
  {
    s.FetchOptions();
    s.ReceiveOptions(Generated(PencilCaseTrio));
    assert PriceId in Ratings.IdSet(s.selectedCriteria) by {
      assert s.selectedCriteria[0].id == PriceId;
    }
  }

  /**
   * Against a budget of 8000 won, a top price score for the 12000-won
   * alternative is refused with a 4000 won nudge, and confirming the
   * 7000-won one opens the learning summary.
   */
  method NudgeThenConfirm(s: Session)
    requires s.Valid() && s.budget == 8000 && s.options == Some(PencilCaseTrio)
    requires PriceId in s.ratings[0] && s.ratings[0][PriceId] == 0 && !s.showBudgetWarning
    modifies s`showNudge, s`nudgeOverage, s`ratings, s`pendingChoice, s`showFinalCheck,
      s`showBudgetWarning, s`showLearningSummary, s`answerA, s`answerB, s`aiFeedback
    ensures s.Valid() && s.showNudge && s.nudgeOverage == 4000
    ensures PriceId in s.ratings[0] && s.ratings[0][PriceId] == 0
    ensures s.pendingChoice == Some(1) && s.showLearningSummary && !s.showBudgetWarning
    ensures s.Step() == 6
  {
    s.UpdateRating(0, PriceId, TopScore);
    s.ChooseFinal(1);
    s.ConfirmFinalChoice();
  }

  /** The pencil-case session from the item form to the learning summary. */
  method PencilCase() returns (s: Session)
    ensures s.Valid() && s.budget == 8000 && s.selectedCriteria == Suggested[..3]
    ensures s.showNudge && s.nudgeOverage == 4000
    ensures PriceId in s.ratings[0] && s.ratings[0][PriceId] == 0
    ensures s.pendingChoice == Some(1) && s.showLearningSummary && !s.showBudgetWarning
    ensures s.Step() == 6
  {
    s := PencilCaseBudget();
    SelectFirstThree(s);
    OfferAlternatives(s);
    NudgeThenConfirm(s);
  }
}
