/** The text-based interview driver: it asks the first question from the bank,
    then for each answer has it evaluated, stores it, and asks a generated question
    on the next topic. The store is a shared object; the model and the score
    parser are fixed at construction; the random draw and the clock are parameters. */
module Bot {
  import opened Common
  import opened Storage
  import opened Evaluator
  import opened Turn
  import QuestionBank

  const Greeting := "Hello! I'm going to ask you some interview questions. Let's start with: "

  /** The reply to an answer: a thank-you, the feedback sentence and the next question. */
  function Response(feedback: string, question: string): string
  {
    "Thank you. " + feedback + "Next question: " + question
  }

  class InterviewBot {
    const sessionId: string
    const storage: SessionStorage
    const llm: Model
    const parseFloat: string -> Option<real>
    const userId: string
    var currentTopic: Option<string>
    var lastQuestion: Option<string>
    var questionsAsked: nat

    /** The bot's session is in the store, and a question is only ever held
        together with its topic. */
    ghost predicate Valid()
      reads this`lastQuestion, this`currentTopic, storage
    {
      && sessionId in storage.sessions
      && (lastQuestion.Some? ==> currentTopic.Some?)
    }

    /** `self.last_question` is truthy: set and not empty. */
    predicate HasQuestion()
      reads this
    {
      lastQuestion.Some? && lastQuestion.value != ""
    }

    /** The bot for a stored session; its user is the session's user. */
    constructor (sessionId: string, storage: SessionStorage, llm: Model, parseFloat: string -> Option<real>)
      requires sessionId in storage.sessions
      ensures Valid()
      ensures this.sessionId == sessionId && this.storage == storage && this.llm == llm && this.parseFloat == parseFloat
      ensures userId == storage.sessions[sessionId].userId
      ensures currentTopic == None && lastQuestion == None && questionsAsked == 0
    {
      this.sessionId := sessionId;
      this.storage := storage;
      this.llm := llm;
      this.parseFloat := parseFloat;
      var session := storage.GetSession(sessionId);
      userId := session.value.userId;
      currentTopic := None;
      lastQuestion := None;
      questionsAsked := 0;
    }

    /** `get_first_question()`: an easy question on the first topic of the bank; it
        is the first question asked. `choice` is the random draw. */
    method GetFirstQuestion(choice: nat) returns (greeting: string)
      requires Valid()
      modifies this
      ensures Valid()
      ensures currentTopic == Some("leadership")
      ensures lastQuestion == Some(QuestionBank.GetQuestion("leadership", "easy", choice))
      ensures lastQuestion.value in QuestionBank.Candidates("leadership", "easy")
      ensures questionsAsked == 1
      ensures greeting == Greeting + lastQuestion.value
    {
      var topics := QuestionBank.AllTopics();
      currentTopic := Some(topics[0]);
      var question := QuestionBank.GetQuestion(currentTopic.value, "easy", choice);
      lastQuestion := Some(question);
      questionsAsked := 1;
      greeting := Greeting + question;
    }

    /** `process_answer(answer_text)`. Without a question to answer it asks the first
        one and leaves the store alone. Otherwise the answer to the current question
        is evaluated and stored under the current topic, the count goes up by exactly
        one, and the next question is planned from the updated store. */
    method ProcessAnswer(answer: string, choice: nat, now: string) returns (response: string)
      requires Valid()
      modifies this, storage
      ensures Valid()
      ensures !old(HasQuestion()) ==>
        && currentTopic == Some("leadership")
        && lastQuestion == Some(QuestionBank.GetQuestion("leadership", "easy", choice))
        && questionsAsked == 1
        && response == Greeting + lastQuestion.value
        && unchanged(storage)
      ensures old(HasQuestion()) ==>
        var e := Evaluate(llm(EvaluationPrompt(old(lastQuestion).value, old(currentTopic).value, answer)), parseFloat);
        var record := QuestionRecord(old(lastQuestion).value, answer, e.score, old(currentTopic).value, e.weakPoints, now);
        var owner := old(storage.sessions)[sessionId].userId;
        && storage.sessions == old(storage.sessions)[sessionId := WithAnswer(old(storage.sessions)[sessionId], record)]
        && storage.knowledge == old(storage.knowledge)[owner := RecordScore(old(storage.Blob(owner)), record.topic, e.score)]
        && storage.userSessions == old(storage.userSessions)
        && questionsAsked == old(questionsAsked) + 1
        && Follows(PlanFor(Levels(BlobOf(storage.knowledge, userId)), storage.sessions[sessionId].questions, questionsAsked, llm))
        && response == Response(FeedbackFor(e.score), lastQuestion.value)
    {
      if !HasQuestion() {
        response := GetFirstQuestion(choice);
        return;
      }
      var score := RecordAnswer(answer, now);
      AskNext();
      response := Response(FeedbackFor(score), lastQuestion.value);
    }

    /** The current topic and question are those of the plan. */
    ghost predicate Follows(plan: Plan)
      reads this`currentTopic, this`lastQuestion
    {
      currentTopic == Some(plan.topic) && lastQuestion == Some(plan.question)
    }

    /** The first half of an answered turn: evaluate the answer to the current
        question, store it under the current topic and count it. */
    method RecordAnswer(answer: string, now: string) returns (score: real)
      requires Valid() && HasQuestion()
      modifies this`questionsAsked, storage
      ensures Valid()
      ensures
        var e := Evaluate(llm(EvaluationPrompt(lastQuestion.value, currentTopic.value, answer)), parseFloat);
        var record := QuestionRecord(lastQuestion.value, answer, e.score, currentTopic.value, e.weakPoints, now);
        var owner := old(storage.sessions)[sessionId].userId;
        && score == e.score
        && storage.sessions == old(storage.sessions)[sessionId := WithAnswer(old(storage.sessions)[sessionId], record)]
        && storage.knowledge == old(storage.knowledge)[owner := RecordScore(old(storage.Blob(owner)), record.topic, e.score)]
        && storage.userSessions == old(storage.userSessions)
        && questionsAsked == old(questionsAsked) + 1
    {
      var weakPoints;
      score, weakPoints := EvaluateAnswer(lastQuestion.value, answer, currentTopic.value, llm, parseFloat);
      storage.AddQuestion(sessionId, lastQuestion.value, answer, score, currentTopic.value, weakPoints, now);
      questionsAsked := questionsAsked + 1;
    }

    /** The second half of an answered turn: move to the planned topic and question. */
    method AskNext()
      requires Valid()
      modifies this`currentTopic, this`lastQuestion
      ensures Valid() && Follows(PlanFor(Levels(BlobOf(storage.knowledge, userId)), storage.sessions[sessionId].questions, questionsAsked, llm))
    {
      var plan := PlanNext(storage, sessionId, userId, questionsAsked, llm);
      currentTopic := Some(plan.topic);
      lastQuestion := Some(plan.question);
    }
  }
}
