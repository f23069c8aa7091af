/**
 * The quiz component as a state machine: the question being shown, the
 * answers given so far, the recommendation once the quiz is complete, the
 * contact record of the result screen and the two flags of lead submission.
 */
module QuizMachine {
  import opened Wrappers
  import opened QuizData
  import opened QuizComplete

  class Quiz {
    /** Index of the question shown. */
    var step: nat
    /** Answers keyed by question id. */
    var answers: map<string, string>
    /** The endpoint's recommendation, once the last question has been answered. */
    var result: Option<Recommendation>
    /** The contact record sent with the lead. */
    var lead: Lead
    /** A lead submission has been started (the in-flight guard); it is never cleared. */
    var inFlight: bool
    /** The lead's post has resolved; `fetch` resolves on any HTTP status, so this is not a sign of success. */
    var done: bool

    /** The step always indexes a question. */
    ghost predicate Valid()
      reads this
    {
      step < |QUESTIONS|
    }

    /** The quiz opens on the first question with nothing answered. */
    constructor ()
      ensures Valid()
      ensures step == 0 && answers == map[] && result == None
      ensures lead == EMPTY_LEAD && !inFlight && !done
    {
      step := 0;
      answers := map[];
      result := None;
      lead := EMPTY_LEAD;
      inFlight := false;
      done := false;
    }

    /** The id of the question shown. */
    function CurrentId(): string
      reads this
      requires Valid()
    {
      QUESTIONS[step].id
    }

    /** The question shown has an answer that is not the empty string. */
    predicate Answered()
      reads this
      requires Valid()
    {
      CurrentId() in answers && answers[CurrentId()] != ""
    }

    /** Choosing an option records it as the answer to the question shown. */
    method OnSelect(value: string)
      requires Valid()
      modifies this
      ensures Valid()
      ensures answers == old(answers)[old(CurrentId()) := value]
      ensures step == old(step) && result == old(result) && lead == old(lead)
      ensures inFlight == old(inFlight) && done == old(done)
    {
      answers := answers[CurrentId() := value];
    }

    /**
     * Typing records the text as the answer to the question shown and, on the
     * name, e-mail and phone questions, copies it into the matching field of
     * the contact record.
     */
    method OnText(value: string)
      requires Valid()
      modifies this
      ensures Valid()
      ensures answers == old(answers)[old(CurrentId()) := value]
      ensures lead == (if old(CurrentId()) == "name" then old(lead).(name := value)
                       else if old(CurrentId()) == "email" then old(lead).(email := value)
                       else if old(CurrentId()) == "phone" then old(lead).(phone := value)
                       else old(lead))
      ensures step == old(step) && result == old(result)
      ensures inFlight == old(inFlight) && done == old(done)
    {
      var id := CurrentId();
      answers := answers[id := value];
      if id == "name" {
        lead := lead.(name := value);
      }
      if id == "email" {
        lead := lead.(email := value);
      }
      if id == "phone" {
        lead := lead.(phone := value);
      }
    }

    /**
     * "Continue": without an answer nothing happens; before the last question
     * the quiz moves on by one; on the last question it posts the answers and,
     * when the post resolves (`resolved`), keeps the recommendation.
     */
    method Next(resolved: bool)
      requires Valid()
      modifies this
      ensures Valid()
      ensures answers == old(answers) && lead == old(lead)
      ensures inFlight == old(inFlight) && done == old(done)
      ensures !old(Answered()) ==> step == old(step) && result == old(result)
      ensures old(Answered()) && old(step) < LAST_STEP ==> step == old(step) + 1 && result == old(result)
      ensures old(Answered()) && old(step) == LAST_STEP ==>
                step == old(step)
                && result == (if resolved then Some(Recommend(GoalOf(old(answers)))) else old(result))
      ensures old(result).Some? ==> result.Some?
    {
      if !Answered() {
        return;
      }
      if step < |QUESTIONS| - 1 {
        step := step + 1;
        return;
      }
      if resolved {
        var resp := Post(Request(answers, (), (), ()));
        result := Some(Recommendation(resp.path, resp.summary));
      }
    }

    /** "Back": one question back, except on the first question. */
    method Back()
      requires Valid()
      modifies this
      ensures Valid()
      ensures step == if old(step) > 0 then old(step) - 1 else old(step)
      ensures answers == old(answers) && result == old(result) && lead == old(lead)
      ensures inFlight == old(inFlight) && done == old(done)
    {
      if step > 0 {
        step := step - 1;
      }
    }

    /** Editing the name field of the result screen. */
    method EditName(value: string)
      modifies this
      ensures lead == old(lead).(name := value)
      ensures step == old(step) && answers == old(answers) && result == old(result)
      ensures inFlight == old(inFlight) && done == old(done)
    {
      lead := lead.(name := value);
    }

    /** Editing the e-mail field of the result screen. */
    method EditEmail(value: string)
      modifies this
      ensures lead == old(lead).(email := value)
      ensures step == old(step) && answers == old(answers) && result == old(result)
      ensures inFlight == old(inFlight) && done == old(done)
    {
      lead := lead.(email := value);
    }

    /** Editing the phone field of the result screen. */
    method EditPhone(value: string)
      modifies this
      ensures lead == old(lead).(phone := value)
      ensures step == old(step) && answers == old(answers) && result == old(result)
      ensures inFlight == old(inFlight) && done == old(done)
    {
      lead := lead.(phone := value);
    }

    /** Ticking or clearing the consent box. */
    method EditConsent(checked: bool)
      modifies this
      ensures lead == old(lead).(consent := checked)
      ensures step == old(step) && answers == old(answers) && result == old(result)
      ensures inFlight == old(inFlight) && done == old(done)
    {
      lead := lead.(consent := checked);
    }

    /**
     * Sending the lead: nothing happens while a submission is in flight, once
     * the lead is done, or when the contact record fails the schema;
     * otherwise the in-flight guard is set and, when the post resolves
     * (`resolved`), the lead is marked done.
     */
    method SubmitLead(emailOk: string -> bool, resolved: bool)
      modifies this
      ensures step == old(step) && answers == old(answers) && result == old(result) && lead == old(lead)
      ensures old(inFlight) || old(done) || !LeadValid(old(lead), emailOk) ==>
                inFlight == old(inFlight) && done == old(done)
      ensures !old(inFlight) && !old(done) && LeadValid(old(lead), emailOk) ==>
                inFlight && done == resolved
    {
      if inFlight || done {
        return;
      }
      if !LeadValid(lead, emailOk) {
        return;
      }
      inFlight := true;
      if resolved {
        done := true;
      }
    }
  }
}
