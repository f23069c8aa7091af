/**
 * How the quiz and the completion endpoint fit together: which of the goal
 * options the quiz offers the endpoint recognises, which heading each path
 * of the endpoint gets on the result screen, and a complete run of the quiz.
 */
module Consistency {
  import opened Wrappers
  import opened QuizData
  import opened QuizComplete
  import opened Titles
  import opened TitlePaths
  import opened QuizMachine

  /** The first goal option is matched exactly by the rejuvenation arm. */
  lemma FirstGoalOptionRouted()
    ensures Recommend(Some(GOAL_OPTIONS[0])) == Recommendation(REJUVENATION_PATH, [REJUVENATION_LINE])
  {
    assert GOAL_OPTIONS[0] == ROUTES[0].goal;
  }

  /** The sixth goal option is matched exactly by the wellness arm. */
  lemma SixthGoalOptionRouted()
    ensures Recommend(Some(GOAL_OPTIONS[5])) == Recommendation(WELLNESS_PATH, [WELLNESS_LINE])
  {
    assert GOAL_OPTIONS[5] == ROUTES[5].goal;
  }

  /**
   * The other five goal options differ from every arm's goal text (the
   * endpoint's texts are worded differently), so they all get the default
   * path and an empty summary.
   */
  lemma OtherGoalOptionsUnrouted(k: nat)
    requires k < |GOAL_OPTIONS| && k != 0 && k != 5
    ensures Recommend(Some(GOAL_OPTIONS[k])) == Recommendation(DEFAULT_PATH, [])
  {
    var g := GOAL_OPTIONS[k];
    if k == 4 {
      assert g[22] != BODY_GOAL[22];
    }
    assert forall i :: 0 <= i < |ROUTES| ==> g != ROUTES[i].goal;
  }

  /** The heading shown for each path the endpoint can answer with. */
  lemma PathTitles()
    ensures ResultTitle(Some(REJUVENATION_PATH)) == REJUVENATION_TITLE
    ensures ResultTitle(Some(HARMONY_PATH)) == LIPS_TITLE
    ensures ResultTitle(Some(WEIGHT_PATH)) == WEIGHT_TITLE
    ensures ResultTitle(Some(FACIAL_PATH)) == SKIN_TITLE
    ensures ResultTitle(Some(BODY_PATH)) == BODY_TITLE
    ensures ResultTitle(Some(WELLNESS_PATH)) == DEFAULT_TITLE
    ensures ResultTitle(Some(DEFAULT_PATH)) == EVALUATION_TITLE
  {
    TitleOfRejuvenecimiento();
    TitleOfArmonizacion();
    TitleOfMetabolismo();
    TitleOfFacial();
    TitleOfCorporal();
    TitleOfBienestar();
    TitleOfEvaluation();
  }

  /**
   * The heading a quiz taker sees for each goal option: the first option
   * gets the rejuvenation heading, the sixth the generic heading (the wellness
   * path matches no rule), and the other five the professional-evaluation
   * heading of the default path.
   */
  lemma GoalOptionTitles(k: nat)
    requires k < |GOAL_OPTIONS|
    ensures ResultTitle(Some(Recommend(Some(GOAL_OPTIONS[k])).path))
            == if k == 0 then REJUVENATION_TITLE else if k == 5 then DEFAULT_TITLE else EVALUATION_TITLE
  {
    PathTitles();
    if k == 0 {
      FirstGoalOptionRouted();
    } else if k == 5 {
      SixthGoalOptionRouted();
    } else {
      OtherGoalOptionsUnrouted(k);
    }
  }

  /**
   * The five choice questions, each answered with its first option: the
   * quiz moves on to the first contact question with the first goal option
   * recorded, and nothing else has changed.
   */
  method AnswerChoices(q: Quiz)
    requires q.Valid() && q.step == 0
    modifies q
    ensures q.Valid() && q.step == 5
    ensures "goal" in q.answers && q.answers["goal"] == GOAL_OPTIONS[0]
    ensures q.lead == old(q.lead) && q.result == old(q.result)
    ensures q.inFlight == old(q.inFlight) && q.done == old(q.done)
  {
    QuestionsWellFormed();
    var i := 0;
    while i < 5
      invariant 0 <= i <= 5 && q.Valid() && q.step == i
      invariant q.lead == old(q.lead) && q.result == old(q.result)
      invariant q.inFlight == old(q.inFlight) && q.done == old(q.done)
      invariant i > 0 ==> "goal" in q.answers && q.answers["goal"] == GOAL_OPTIONS[0]
    {
      q.OnSelect(QUESTIONS[i].options.value[0]);
      q.Next(true);
      i := i + 1;
    }
  }

  /**
   * The three contact questions, each answered and confirmed: the quiz
   * reaches the last question, the text answers are copied into the lead,
   * and the goal answer is kept.
   */
  method AnswerContacts(q: Quiz, name: string, email: string, phone: string)
    requires q.Valid() && q.step == 5 && q.result == None
    requires name != "" && email != ""
    modifies q
    ensures q.Valid() && q.step == LAST_STEP && q.result == None
    ensures q.lead == old(q.lead).(name := name, email := email, phone := phone)
    ensures q.answers == old(q.answers)["name" := name]["email" := email]["phone" := phone]
    ensures q.inFlight == old(q.inFlight) && q.done == old(q.done)
  {
    QuestionsWellFormed();
    q.OnText(name);
    q.Next(true);
    q.OnText(email);
    q.Next(true);
    q.OnText(phone);
  }

  /**
   * A complete run up to the result screen: the first option of every choice
   * question, a name, an e-mail address and a phone number, then "Continue"
   * on the last question with the endpoint's reply arriving. The quiz stays
   * on the last question, holds the rejuvenation recommendation, has copied
   * the contact answers into the lead, and no lead has been sent.
   */
  method RunToResult() returns (q: Quiz)
    ensures fresh(q) && q.Valid() && q.step == LAST_STEP
    ensures q.result == Some(Recommendation(REJUVENATION_PATH, [REJUVENATION_LINE]))
    ensures q.lead == Lead("Ana", "ana@example.com", "5551234", false)
    ensures !q.inFlight && !q.done
  {
    q := new Quiz();
    AnswerChoices(q);
    AnswerContacts(q, "Ana", "ana@example.com", "5551234");
    assert GoalOf(q.answers) == Some(GOAL_OPTIONS[0]);
    q.Next(true);
    FirstGoalOptionRouted();
  }

  /** The state the result screen opens in after the complete run. */
  method CompleteRun() returns (result: Option<Recommendation>, lead: Lead, step: nat)
    ensures result == Some(Recommendation(REJUVENATION_PATH, [REJUVENATION_LINE]))
    ensures lead == Lead("Ana", "ana@example.com", "5551234", false)
    ensures step == LAST_STEP
  {
    var q := RunToResult();
    result, lead, step := q.result, q.lead, q.step;
  }

  /**
   * On the result screen after the complete run, the consent box is ticked
   * and the lead sent, its post fails, and it is sent again: the first
   * attempt sets the in-flight guard, which nothing clears, so the second
   * attempt is refused and the lead is never marked done.
   */
  method RetryAfterFailedSubmission(emailOk: string -> bool) returns (inFlight: bool, done: bool)
    requires emailOk("ana@example.com")
    ensures inFlight && !done
  {
    var q := RunToResult();
    q.EditConsent(true);
    q.SubmitLead(emailOk, false);
    q.SubmitLead(emailOk, true);
    inFlight, done := q.inFlight, q.done;
  }

  /**
   * On the result screen after the complete run, the phone is shortened to
   * six digits and consent given: the record fails the schema and is not
   * sent, whatever the reply would have been.
   */
  method InvalidLeadNotSent(emailOk: string -> bool) returns (inFlight: bool, done: bool)
    ensures !inFlight && !done
  {
    var q := RunToResult();
    q.EditPhone("555123");
    q.EditConsent(true);
    q.SubmitLead(emailOk, true);
    inFlight, done := q.inFlight, q.done;
  }

  /**
   * On the result screen after the complete run, the phone is replaced by
   * four emoji (eight UTF-16 code units) and consent given: the record
   * passes the length check and is sent.
   */
  method EmojiPhoneSent(emailOk: string -> bool) returns (inFlight: bool, done: bool)
    requires emailOk("ana@example.com")
    ensures inFlight && done
  {
    var q := RunToResult();
    q.EditPhone("\U{1F4F1}\U{1F4F1}\U{1F4F1}\U{1F4F1}");
    q.EditConsent(true);
    q.SubmitLead(emailOk, true);
    inFlight, done := q.inFlight, q.done;
  }
}
