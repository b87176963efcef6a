/**
 * The shopping-decision session (src/App.jsx, component App): one record of
 * screen flags and data, updated by the event handlers. Each handler is a
 * method; a request to the language model is split into the handler's
 * synchronous part and the continuation that receives the reply.
 */
module Shop {
  import opened Wrappers
  import opened Text
  import Budget
  import opened Criteria
  import opened Ratings
  import Progress

  /** One generated purchase alternative. */
  datatype Alternative = Alternative(name: string, price: int, features: string)

  /** The `options` array; the session indexes it at 0, 1 and 2. */
  type Trio = s: seq<Alternative> | |s| == 3
    witness [Alternative("", 0, ""), Alternative("", 0, ""), Alternative("", 0, "")]

  /** The outcome of the alternatives request. */
  datatype OptionsReply = Generated(alternatives: Trio) | NotGenerated

  /** The outcome of the feedback request. */
  datatype FeedbackReply = Written(text: string) | NotWritten

  /** The error messages the session shows, by cause. */
  datatype Problem = ItemMissing | OptionsFailed | AnswersMissing | FeedbackFailed

  const PriceId := "price"
  const TopScore := 5
  const NoScores: seq<Scores> := [map[], map[], map[]]

  /** JavaScript truthiness of an optional string: `null` and "" are false. */
  predicate Truthy(s: Option<string>)
  {
    s.Some? && s.value != ""
  }

  /**
   * The `useState` variables of `App`. Each handler's `modifies` clause names
   * exactly the fields it sets; every other field keeps its value.
   */
  class Session {
    var item: string
    var budget: int                    // Number(budget): the empty string reads as 0
    var loading: bool
    var error: Option<Problem>
    var options: Option<Trio>
    var showCriteriaSelection: bool
    var selectedCriteria: seq<Criterion>
    var customCriterion: string
    var showNudge: bool
    var nudgeOverage: int              // the amount the nudge message quotes
    var showFinalCheck: bool
    var pendingChoice: Option<nat>
    var showBudgetWarning: bool
    var ratings: seq<Scores>           // ratings[0], ratings[1], ratings[2]
    var showLearningSummary: bool
    var answerA: string
    var answerB: string
    var aiFeedback: Option<string>
    var feedbackLoading: bool

    /** At most three criteria; one score map per alternative, each score 0 to 5 stars. */
    ghost predicate Valid()
      reads this
    {
      && |selectedCriteria| <= MaxSelected
      && |ratings| == 3
      && (forall i :: 0 <= i < 3 ==> InStarRange(ratings[i]))
      && (pendingChoice.Some? ==> pendingChoice.value < 3)
    }

    /** The flags `getCurrentStep` reads. */
    function Flags(): Progress.Flags
      reads this
    {
      Progress.Flags(showLearningSummary, Truthy(aiFeedback),
        showFinalCheck, showBudgetWarning, options.Some?, loading, showCriteriaSelection)
    }

    /** `getCurrentStep()` */
    function Step(): (step: int)
      reads this
      ensures 1 <= step <= Progress.TotalSteps
    {
      Progress.CurrentStep(Flags())
    }

    /** The item form is on screen. */
    predicate AtItemEntry()
      reads this
      ensures AtItemEntry() && !Progress.Deciding(Flags()) ==> Step() == 1
    {
      !showCriteriaSelection && options.None? && !loading
    }

    /** The criteria selection screen is on screen. */
    predicate AtCriteriaSelection()
      reads this
      ensures AtCriteriaSelection() && !Progress.Deciding(Flags()) && options.None? ==> Step() == 2
    {
      showCriteriaSelection && !loading
    }

    /** The state `useState` gives on a fresh visit. */
    constructor ()
      ensures Valid() && Step() == 1 && AtItemEntry()
      ensures item == "" && budget == 0 && error.None? && !feedbackLoading
      ensures selectedCriteria == [] && customCriterion == "" && ratings == NoScores
      ensures !showNudge && nudgeOverage == 0 && pendingChoice.None?
      ensures answerA == "" && answerB == "" && aiFeedback.None?
      ensures !showFinalCheck && !showBudgetWarning && !showLearningSummary
    {
      item, budget, loading, error := "", 0, false, None;
      options, showCriteriaSelection := None, false;
      selectedCriteria, customCriterion := [], "";
      showNudge, nudgeOverage, showFinalCheck := false, 0, false;
      pendingChoice, showBudgetWarning, ratings := None, false, NoScores;
      showLearningSummary, answerA, answerB := false, "", "";
      aiFeedback, feedbackLoading := None, false;
    }

    /** Typing into the item field. */
    method EditItem(text: string)
      modifies this`item
      ensures item == text
    {
      item := text;
    }

    /** Typing into the custom criterion field. */
    method EditCustomCriterion(text: string)
      modifies this`customCriterion
      ensures customCriterion == text
    {
      customCriterion := text;
    }

    /** Typing into the two blanks of the learning summary. */
    method EditAnswers(a: string, b: string)
      modifies this`answerA, this`answerB
      ensures answerA == a && answerB == b
    {
      answerA, answerB := a, b;
    }

    /**
     * `handleSubmit`, up to the budget request: a blank item only raises an
     * error; otherwise the request starts.
     */
    method SubmitItem() returns (sent: bool)
      modifies this`loading, this`error
      ensures sent <==> Filled(item)
      ensures !sent ==> error == Some(ItemMissing) && loading == old(loading)
      ensures sent ==> loading && error.None?
    {
      sent := Filled(item);
      if !sent {
        error := Some(ItemMissing);
      } else {
        loading, error := true, None;
      }
    }

    /**
     * `handleSubmit` once the budget reply is in: `k` and `d` are the values
     * of the two random draws. Success and failure both open the criteria
     * selection with nothing selected.
     */
    method ReceiveBudget(reply: Budget.Reply, k: int, d: int)
      requires Valid() && Budget.IsDraw(reply, k, d)
      modifies this`budget, this`showCriteriaSelection, this`selectedCriteria, this`loading
      ensures Valid()
      ensures budget == Budget.Derived(reply, k, d) && budget >= Budget.Floor
      ensures showCriteriaSelection && selectedCriteria == [] && !loading
      ensures AtCriteriaSelection()
    {
      budget := Budget.Derived(reply, k, d);
      showCriteriaSelection := true;
      selectedCriteria := [];
      loading := false;
    }

    /** `toggleCriterion(c)` */
    method ToggleCriterion(c: Criterion)
      requires Valid()
      modifies this`selectedCriteria
      ensures Valid()
      ensures selectedCriteria == Toggled(old(selectedCriteria), c)
      ensures UniqueIds(old(selectedCriteria)) ==> UniqueIds(selectedCriteria)
    {
      if UniqueIds(selectedCriteria) {
        ToggleKeepsUnique(selectedCriteria, c);
      }
      selectedCriteria := Toggled(selectedCriteria, c);
    }

    /**
     * `addCustomCriterion()` at clock reading `now`: a non-blank text is
     * added while there is room, and the field is cleared; otherwise nothing changes.
     */
    method AddCustomCriterion(now: nat)
      requires Valid()
      modifies this`selectedCriteria, this`customCriterion
      ensures Valid()
      ensures !old(Filled(customCriterion)) || old(|selectedCriteria|) >= MaxSelected ==>
                unchanged(this)
      ensures old(Filled(customCriterion)) && old(|selectedCriteria|) < MaxSelected ==>
                && selectedCriteria == old(selectedCriteria) + [Criterion(CustomId(now), old(customCriterion), CustomEmoji)]
                && customCriterion == ""
      ensures UniqueIds(old(selectedCriteria)) && !HasId(old(selectedCriteria), CustomId(now)) ==>
                UniqueIds(selectedCriteria)
    {
      if UniqueIds(selectedCriteria) && !HasId(selectedCriteria, CustomId(now)) {
        WithCustomKeepsUnique(selectedCriteria, customCriterion, now);
      }
      var adding := Filled(customCriterion) && |selectedCriteria| < MaxSelected;
      if adding {
        selectedCriteria := WithCustom(selectedCriteria, customCriterion, now);
        customCriterion := "";
      }
    }

    /**
     * `fetchOptions`, up to the alternatives request. Clearing the criteria
     * flag together with setting `loading` means the step shown while the
     * request runs is 2, never 3.
     */
    method FetchOptions()
      modifies this`loading, this`error, this`options, this`showCriteriaSelection
      ensures loading && error.None? && options.None? && !showCriteriaSelection
      ensures !old(showLearningSummary || Truthy(aiFeedback) || showFinalCheck || showBudgetWarning) ==>
                Step() == 2
    {
      loading := true;
      error := None;
      options := None;
      showCriteriaSelection := false;
    }

    /**
     * `fetchOptions` once the reply is in: on success the alternatives are
     * stored and every alternative gets a 0 for each selected criterion; on
     * failure an error is shown and, the criteria flag being cleared, the
     * session is back at the item form.
     */
    method ReceiveOptions(reply: OptionsReply)
      requires Valid()
      modifies this`options, this`ratings, this`error, this`loading
      ensures Valid() && !loading
      ensures reply.Generated? ==>
                && options == Some(reply.alternatives) && error == old(error)
                && (forall i :: 0 <= i < 3 ==>
                      ratings[i] == ratings[0] && ZeroedFor(ratings[i], selectedCriteria) && Total(ratings[i]) == 0)
      ensures reply.NotGenerated? ==>
                error == Some(OptionsFailed) && options == old(options) && ratings == old(ratings)
      ensures reply.NotGenerated? && !showCriteriaSelection && old(options).None? ==> AtItemEntry()
    {
      if reply.Generated? {
        options := Some(reply.alternatives);
        var initial := InitialRatings(selectedCriteria);
        TotalOfZeros(initial);
        ratings := [initial, initial, initial];
      } else {
        error := Some(OptionsFailed);
      }
      loading := false;
    }

    /** The nudge guard of `updateRating`: a top price score for an alternative over budget. */
    predicate NudgeFires(i: nat, c: string, v: int)
      reads this
      requires i < 3 && (c == PriceId && v == TopScore ==> options.Some?)
      ensures NudgeFires(i, c, v) ==> c == PriceId && v == TopScore && options.value[i].price - budget > 0
      ensures c == PriceId && v == TopScore && options.value[i].price == budget ==> !NudgeFires(i, c, v)
    {
      c == PriceId && v == TopScore && options.value[i].price > budget
    }

    /**
     * `updateRating(i, c, v)` for a star click `v`: a top price score for an
     * alternative over budget is refused with a nudge quoting the overage;
     * any other click sets exactly that one cell.
     */
    method UpdateRating(i: nat, c: string, v: int)
      requires Valid() && i < 3 && 1 <= v <= TopScore
      requires c == PriceId && v == TopScore ==> options.Some?
      modifies this`showNudge, this`nudgeOverage, this`ratings
      ensures Valid()
      ensures old(NudgeFires(i, c, v)) ==>
                && showNudge && nudgeOverage == old(options.value[i].price - budget) > 0
                && ratings == old(ratings)
      ensures !old(NudgeFires(i, c, v)) ==>
                && ratings == old(ratings)[i := old(ratings[i])[c := v]]
                && showNudge == old(showNudge) && nudgeOverage == old(nudgeOverage)
      ensures !old(NudgeFires(i, c, v)) ==>
                && ratings[i][c] == v
                && (forall k :: k != c ==> Cell(ratings[i], k) == old(Cell(ratings[i], k)))
                && (forall j :: 0 <= j < 3 && j != i ==> ratings[j] == old(ratings[j]))
                && Total(ratings[i]) == old(Total(ratings[i])) - old(Cell(ratings[i], c)) + v
    {
      if c == PriceId && v == TopScore {
        var chosen := options.value[i];
        if chosen.price > budget {
          nudgeOverage := chosen.price - budget;
          showNudge := true;
          return;
        }
      }
      TotalAfterRating(ratings[i], c, v);
      ratings := ratings[i := ratings[i][c := v]];
    }

    /** Closing the nudge popup. */
    method DismissNudge()
      modifies this`showNudge
      ensures !showNudge
    {
      showNudge := false;
    }

    /** `handleFinalChoice(i)`: stage the choice and open the comparison of totals. */
    method ChooseFinal(i: nat)
      requires Valid() && i < 3
      modifies this`pendingChoice, this`showFinalCheck
      ensures Valid()
      ensures pendingChoice == Some(i) && showFinalCheck
    {
      pendingChoice := Some(i);
      showFinalCheck := true;
    }

    /** "Think again" in the comparison: only hides it; the staged choice stays. */
    method CancelFinalCheck()
      modifies this`showFinalCheck
      ensures !showFinalCheck
    {
      showFinalCheck := false;
    }

    /** The staged alternative costs more than the budget. */
    predicate ChoiceOverBudget()
      reads this
      requires options.Some? && pendingChoice.Some? && pendingChoice.value < 3
      ensures ChoiceOverBudget() <==> Shortfall() > 0
    {
      options.value[pendingChoice.value].price > budget
    }

    /** The shortfall the budget warning shows. */
    function Shortfall(): (r: int)
      reads this
      requires options.Some? && pendingChoice.Some? && pendingChoice.value < 3
      ensures options.value[pendingChoice.value].price <= budget ==> r <= 0
    {
      options.value[pendingChoice.value].price - budget
    }

    /**
     * `confirmFinalChoice()`: closes the comparison, then either warns with
     * a positive shortfall (over budget) or opens an empty learning summary.
     */
    method ConfirmFinalChoice()
      requires Valid() && options.Some? && pendingChoice.Some?
      modifies this`showFinalCheck, this`showBudgetWarning, this`showLearningSummary,
        this`answerA, this`answerB, this`aiFeedback
      ensures Valid() && !showFinalCheck
      ensures old(ChoiceOverBudget()) ==>
                && showBudgetWarning && Shortfall() == old(Shortfall()) > 0
                && unchanged(this`showLearningSummary, this`answerA, this`answerB, this`aiFeedback)
      ensures !old(ChoiceOverBudget()) ==>
                && showLearningSummary && answerA == "" && answerB == "" && aiFeedback.None?
                && showBudgetWarning == old(showBudgetWarning) && Step() == 6
    {
      showFinalCheck := false;
      var chosen := options.value[pendingChoice.value];
      if chosen.price > budget {
        showBudgetWarning := true;
        return;
      }
      showLearningSummary := true;
      answerA := "";
      answerB := "";
      aiFeedback := None;
    }

    /** "Choose again within the budget": only hides the warning. */
    method CloseBudgetWarning()
      modifies this`showBudgetWarning
      ensures !showBudgetWarning
    {
      showBudgetWarning := false;
    }

    /**
     * `handleLearningSummarySubmit`, up to the feedback request: with a blank
     * answer only an error is shown and no request is made.
     */
    method SubmitAnswers() returns (sent: bool)
      modifies this`error, this`feedbackLoading, this`aiFeedback
      ensures sent <==> Filled(answerA) && Filled(answerB)
      ensures !sent ==> error == Some(AnswersMissing) && unchanged(this`feedbackLoading, this`aiFeedback)
      ensures sent ==> feedbackLoading && aiFeedback.None? && error.None?
    {
      sent := Filled(answerA) && Filled(answerB);
      if !sent {
        error := Some(AnswersMissing);
      } else {
        feedbackLoading, aiFeedback, error := true, None, None;
      }
    }

    /** `handleLearningSummarySubmit` once the feedback reply is in. */
    method ReceiveFeedback(reply: FeedbackReply)
      modifies this`aiFeedback, this`error, this`feedbackLoading
      ensures !feedbackLoading
      ensures reply.Written? ==> aiFeedback == Some(reply.text) && error == old(error)
      ensures reply.NotWritten? ==> error == Some(FeedbackFailed) && aiFeedback == old(aiFeedback)
    {
      if reply.Written? {
        aiFeedback := Some(reply.text);
      } else {
        error := Some(FeedbackFailed);
      }
      feedbackLoading := false;
    }

    /** "Try another choice": back to the table with the same alternatives and scores. */
    method TryAnotherChoice()
      modifies this`showLearningSummary, this`aiFeedback, this`answerA, this`answerB
      ensures !showLearningSummary && aiFeedback.None? && answerA == "" && answerB == ""
    {
      showLearningSummary := false;
      aiFeedback := None;
      answerA := "";
      answerB := "";
    }

    /**
     * "Back to the start": clears the summary, the alternatives, the item,
     * the budget, the criteria and the scores. The staged choice, the error,
     * the nudge and the custom field are left as they were.
     */
    method StartOver()
      requires Valid()
      modifies this`showLearningSummary, this`aiFeedback, this`answerA, this`answerB,
        this`options, this`item, this`budget, this`showCriteriaSelection,
        this`selectedCriteria, this`ratings
      ensures Valid()
      ensures !showLearningSummary && aiFeedback.None? && answerA == "" && answerB == ""
      ensures options.None? && item == "" && budget == 0 && !showCriteriaSelection
      ensures selectedCriteria == [] && ratings == NoScores
      ensures !loading ==> AtItemEntry()
    {
      showLearningSummary := false;
      aiFeedback := None;
      answerA := "";
      answerB := "";
      options := None;
      item := "";
      budget := 0;
      showCriteriaSelection := false;
      selectedCriteria := [];
      ratings := NoScores;
      assert InStarRange(ratings[0]) && InStarRange(ratings[1]) && InStarRange(ratings[2]);
    }

    /** "Choose again" under the table: like starting over, but the scores are kept. */
    method ChooseAgain()
      requires Valid()
      modifies this`options, this`item, this`budget, this`showCriteriaSelection, this`selectedCriteria
      ensures Valid()
      ensures options.None? && item == "" && budget == 0 && !showCriteriaSelection
      ensures selectedCriteria == []
      ensures !loading ==> AtItemEntry()
    {
      options := None;
      item := "";
      budget := 0;
      showCriteriaSelection := false;
      selectedCriteria := [];
    }
  }
}
