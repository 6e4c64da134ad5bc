/** The voice interview driver: the state of the frame processor that sits between
    speech-to-text and text-to-speech. It asks the first question, collects the
    transcribed answer, processes it on the end of speech or after a silence, and
    after `MaxQuestions` answers ends the session with a spoken summary. Frames,
    timers and the pipeline are left out: each frame or timer that reaches the
    processor is a method call, and what it would send to speech is the result. */
module Voice {
  import opened Common
  import opened PyText
  import opened Ranking
  import opened Storage
  import opened Evaluator
  import opened Turn
  import QuestionBank

  /** The number of answers after which the session ends. */
  const MaxQuestions: nat := 3

  // ---------------------------------------------------------------- the summary

  const GreatAdvice := "Great job overall! Keep practicing to stay sharp."
  const GoodAdvice := "Good effort! Focus on your weaker areas for improvement."
  const GrowthAdvice := "There's room for growth. Consider practicing more with specific examples."

  /** `int(level * 100)`: Python's `int` truncates toward zero. */
  function Percent(level: real): (p: int)
    ensures 0.0 <= level ==> (p as real) <= level * 100.0 < (p as real) + 1.0
    ensures level < 0.0 ==> (p as real) - 1.0 < level * 100.0 <= (p as real)
  {
    var x := level * 100.0;
    if x >= 0.0 then x.Floor else -((-x).Floor)
  }

  /** The overall average of the summary: the mean of the levels, or 0.5 when there
      are none. */
  function OverallAverage(levels: Dict<real>): real
  {
    if |levels.keys| > 0 then Sum(Values(levels)) / (|levels.keys| as real) else NeutralLevel
  }

  /** The advice sentence for the overall average: from 0.7 great, from 0.5 good,
      below that room for growth. */
  function AdviceFor(average: real): (a: string)
    ensures a == GreatAdvice <==> 0.7 <= average
    ensures a == GoodAdvice <==> 0.5 <= average < 0.7
    ensures a == GrowthAdvice <==> average < 0.5
  {
    if average >= 0.7 then GreatAdvice else if average >= 0.5 then GoodAdvice else GrowthAdvice
  }

  /** What the closing speech says: the feedback on the last answer, each topic with
      its percentage from the strongest to the weakest, and the advice. */
  datatype Summary = Summary(feedback: string, ranking: seq<(string, int)>, advice: string)

  /** The topics of a ranked list, each with its level as a percentage. */
  function Percentages(ranked: seq<Item>): (r: seq<(string, int)>)
    ensures |r| == |ranked|
    ensures forall i :: 0 <= i < |r| ==> r[i] == (ranked[i].0, Percent(ranked[i].1))
  {
    seq(|ranked|, i requires 0 <= i < |ranked| => (ranked[i].0, Percent(ranked[i].1)))
  }

  /** The summary built from the user's levels at the end of the session. */
  function SummaryOf(levels: Dict<real>, lastFeedback: string): Summary
  {
    Summary(lastFeedback, Percentages(Sort(Items(levels), true)), AdviceFor(OverallAverage(levels)))
  }

  /** The summary-building part of `_end_session_with_summary`: the loop that adds one
      line per topic, strongest first, then the advice for the mean level. */
  method BuildSummary(levels: Dict<real>, lastFeedback: string) returns (summary: Summary)
    ensures summary == SummaryOf(levels, lastFeedback)
  {
    var ranked := Sort(Items(levels), true);
    var ranking := [];
    var i := 0;
    while i < |ranked|
      invariant 0 <= i <= |ranked|
      invariant |ranking| == i
      invariant forall k :: 0 <= k < i ==> ranking[k] == (ranked[k].0, Percent(ranked[k].1))
    {
      ranking := ranking + [(ranked[i].0, Percent(ranked[i].1))];
      i := i + 1;
    }
    var average := OverallAverage(levels);
    summary := Summary(lastFeedback, ranking, AdviceFor(average));
  }

  /** Every line of the summary is a topic with a level, at its level's percentage,
      and the lines go from the highest level to the lowest. */
  lemma SummaryRankingOrdered(levels: Dict<real>, lastFeedback: string)
    ensures var r := SummaryOf(levels, lastFeedback).ranking;
      && |r| == |levels.keys|
      && (forall i :: 0 <= i < |r| ==> r[i].0 in levels.values && r[i].1 == Percent(levels.values[r[i].0]))
      && (forall i, j :: 0 <= i < j < |r| ==> levels.values[r[i].0] >= levels.values[r[j].0])
  {
    var items := Items(levels);
    var ranked := Sort(items, true);
    SortSorted(items, true);
    forall i | 0 <= i < |ranked| ensures ranked[i].0 in levels.values && ranked[i].1 == levels.values[ranked[i].0] {
      assert ranked[i] in multiset(items);
    }
    forall i, j | 0 <= i < j < |ranked| ensures ranked[i].1 >= ranked[j].1 {
      assert Key(ranked[i], true) <= Key(ranked[j], true);
    }
  }

  /** Every topic with a level has a line in the summary. */
  lemma SummaryRankingComplete(levels: Dict<real>, lastFeedback: string, t: string)
    requires t in levels.values
    ensures exists i :: 0 <= i < |SummaryOf(levels, lastFeedback).ranking| && SummaryOf(levels, lastFeedback).ranking[i].0 == t
  {
    var items := Items(levels);
    var ranked := Sort(items, true);
    var k :| 0 <= k < |levels.keys| && levels.keys[k] == t;
    assert items[k] in multiset(ranked);
    var i :| 0 <= i < |ranked| && ranked[i] == items[k];
    assert SummaryOf(levels, lastFeedback).ranking[i].0 == t;
  }

  /** The advice follows the mean level, which is 0.5 with no levels and lies in
      [0, 1] when the levels do. */
  lemma OverallAverageBounds(levels: Dict<real>)
    ensures |levels.keys| == 0 ==> OverallAverage(levels) == 0.5
    ensures (forall t :: t in levels.values ==> 0.0 <= levels.values[t] <= 1.0) ==> 0.0 <= OverallAverage(levels) <= 1.0
  {
    if |levels.keys| > 0 && forall t :: t in levels.values ==> 0.0 <= levels.values[t] <= 1.0 {
      var vs := Values(levels);
      forall i | 0 <= i < |vs| ensures 0.0 <= vs[i] <= 1.0 {
        assert levels.keys[i] in levels.values;
      }
      MeanBounds(vs, 0.0, 1.0);
      assert OverallAverage(levels) == Mean(vs);
    }
  }

  // ---------------------------------------------------------------- the processor

  /** What the processor sends to speech in response to a call. */
  datatype Speech =
    | Silent
    | FirstQuestion(question: string)
    | NextQuestion(feedback: string, question: string)
    | Closing(summary: Summary)

  class InterviewBotProcessor {
    const sessionId: string
    const storage: SessionStorage
    const llm: Model
    const parseFloat: string -> Option<real>
    const userId: string
    var currentTopic: Option<string>
    var lastQuestion: Option<string>
    var questionsAsked: nat
    var waitingForAnswer: bool
    var currentAnswer: string
    var sessionEnded: bool

    /** The processor's session is in the store, and a question is only ever held
        together with its topic. */
    ghost predicate Valid()
      reads this`lastQuestion, this`currentTopic, storage
    {
      && sessionId in storage.sessions
      && (lastQuestion.Some? ==> currentTopic.Some?)
    }

    /** The question limit: the session has ended exactly when more than
        `MaxQuestions` questions have been counted, and the count never passes
        `MaxQuestions + 1`; an ended session no longer waits for an answer. */
    ghost predicate WithinLimit()
      reads this
    {
      && questionsAsked <= MaxQuestions + 1
      && (sessionEnded <==> questionsAsked > MaxQuestions)
      && (sessionEnded ==> !waitingForAnswer)
    }

    /** `self.last_question` is truthy: set and not empty. */
    predicate HasQuestion()
      reads this
    {
      lastQuestion.Some? && lastQuestion.value != ""
    }

    /** The processor for a stored session: nothing asked, not waiting, not ended. */
    constructor (sessionId: string, storage: SessionStorage, llm: Model, parseFloat: string -> Option<real>)
      requires sessionId in storage.sessions
      ensures Valid() && WithinLimit()
      ensures this.sessionId == sessionId && this.storage == storage && this.llm == llm && this.parseFloat == parseFloat
      ensures userId == storage.sessions[sessionId].userId
      ensures currentTopic == None && lastQuestion == None && questionsAsked == 0
      ensures !waitingForAnswer && currentAnswer == "" && !sessionEnded
    {
      this.sessionId := sessionId;
      this.storage := storage;
      this.llm := llm;
      this.parseFloat := parseFloat;
      var session := storage.GetSession(sessionId);
      userId := session.value.userId;
      currentTopic := None;
      lastQuestion := None;
      questionsAsked := 0;
      waitingForAnswer := false;
      currentAnswer := "";
      sessionEnded := false;
    }

    /** `_handle_user_text(text)`: a transcript that differs from the current answer
        replaces it and restarts the silence timer; the same transcript again changes
        nothing. */
    method HandleUserText(text: string) returns (restartTimer: bool)
      modifies this`currentAnswer
      ensures restartTimer == (text != old(currentAnswer))
      ensures currentAnswer == text
    {
      restartTimer := text != currentAnswer;
      if restartTimer {
        currentAnswer := text;
      }
    }

    /** The start-of-speech frame: the answer being collected starts over. */
    method UserStartedSpeaking()
      modifies this`currentAnswer
      ensures currentAnswer == ""
    {
      currentAnswer := "";
    }

    /** `_ask_first_question()`: an easy question on the first topic of the bank,
        counted as the first question, and the processor starts waiting for the
        answer. It is asked once, when the pipeline is ready, before any answer. */
    method AskFirstQuestion(choice: nat) returns (speech: Speech)
      requires Valid() && WithinLimit() && !sessionEnded
      modifies this`currentTopic, this`lastQuestion, this`questionsAsked, this`waitingForAnswer
      ensures Valid() && WithinLimit()
      ensures currentTopic == Some("leadership")
      ensures lastQuestion == Some(QuestionBank.GetQuestion("leadership", "easy", choice))
      ensures lastQuestion.value in QuestionBank.Candidates("leadership", "easy")
      ensures questionsAsked == 1 && waitingForAnswer
      ensures speech == FirstQuestion(lastQuestion.value)
    {
      var topics := QuestionBank.AllTopics();
      currentTopic := Some(topics[0]);
      var question := QuestionBank.GetQuestion(currentTopic.value, "easy", choice);
      lastQuestion := Some(question);
      questionsAsked := 1;
      waitingForAnswer := true;
      speech := FirstQuestion(question);
    }

    /** `_process_answer(answer_text)` with the guard the session-end flag calls for:
        nothing happens without a question to answer or once the session has ended.
        Otherwise the answer is evaluated and stored, the count goes up by one, the
        next question is planned; when the count passes `MaxQuestions` the session
        ends with the summary, else the processor waits for the next answer. */
    method ProcessAnswer(answer: string, now: string) returns (speech: Speech)
      requires Valid() && WithinLimit()
      modifies this, storage
      ensures Valid() && WithinLimit()
      ensures !old(HasQuestion()) || old(sessionEnded) ==> speech == Silent && unchanged(this) && unchanged(storage)
      ensures old(HasQuestion()) && !old(sessionEnded) ==>
        var e := Evaluate(llm(EvaluationPrompt(old(lastQuestion).value, old(currentTopic).value, answer)), parseFloat);
        var record := QuestionRecord(old(lastQuestion).value, answer, e.score, old(currentTopic).value, e.weakPoints, now);
        var owner := old(storage.sessions)[sessionId].userId;
        var answered := WithAnswer(old(storage.sessions)[sessionId], record);
        && questionsAsked == old(questionsAsked) + 1
        && Follows(PlanFor(Levels(BlobOf(storage.knowledge, userId)), storage.sessions[sessionId].questions, questionsAsked, llm))
        && storage.knowledge == old(storage.knowledge)[owner := RecordScore(old(storage.Blob(owner)), record.topic, e.score)]
        && storage.userSessions == old(storage.userSessions)
        && (sessionEnded <==> questionsAsked > MaxQuestions)
        && (sessionEnded ==>
              && !waitingForAnswer && currentAnswer == old(currentAnswer)
              && speech == Closing(SummaryOf(Levels(BlobOf(storage.knowledge, userId)), FeedbackFor(e.score)))
              && storage.sessions == old(storage.sessions)[sessionId := answered.(endedAt := Some(now))])
        && (!sessionEnded ==>
              && waitingForAnswer && currentAnswer == ""
              && speech == NextQuestion(FeedbackFor(e.score), lastQuestion.value)
              && storage.sessions == old(storage.sessions)[sessionId := answered])
    {
      if sessionEnded || !HasQuestion() {
        return Silent;
      }
      speech := Answer(answer, now);
    }

    /** `_process_answer(answer_text)` as the Python code has it: the only guard is the
        missing question, so an answer that arrives after the session has ended is
        evaluated and stored again, and the count passes the limit. */
    method ProcessAnswerAsWritten(answer: string, now: string) returns (speech: Speech)
      requires Valid()
      modifies this, storage
      ensures Valid()
      ensures !old(HasQuestion()) ==> speech == Silent && unchanged(this) && unchanged(storage)
      ensures old(HasQuestion()) ==>
        && questionsAsked == old(questionsAsked) + 1
        && RecordedAnswer(old(storage.sessions)[sessionId].questions, old(lastQuestion).value, answer)
      ensures old(HasQuestion()) && old(sessionEnded) && old(WithinLimit()) ==>
        questionsAsked == MaxQuestions + 2 && sessionEnded && speech.Closing? && !WithinLimit()
    {
      if !HasQuestion() {
        return Silent;
      }
      speech := Answer(answer, now);
    }

    /** The body of `_process_answer` once its guard has passed. */
    method Answer(answer: string, now: string) returns (speech: Speech)
      requires Valid() && HasQuestion()
      modifies this`questionsAsked, this`currentTopic, this`lastQuestion, storage
      modifies this`sessionEnded, this`waitingForAnswer, this`currentAnswer
      ensures Valid() && Follows(PlanFor(Levels(BlobOf(storage.knowledge, userId)), storage.sessions[sessionId].questions, questionsAsked, llm))
      ensures
        var e := Evaluate(llm(EvaluationPrompt(old(lastQuestion).value, old(currentTopic).value, answer)), parseFloat);
        var record := QuestionRecord(old(lastQuestion).value, answer, e.score, old(currentTopic).value, e.weakPoints, now);
        var owner := old(storage.sessions)[sessionId].userId;
        var answered := WithAnswer(old(storage.sessions)[sessionId], record);
        && questionsAsked == old(questionsAsked) + 1
        && storage.knowledge == old(storage.knowledge)[owner := RecordScore(old(storage.Blob(owner)), record.topic, e.score)]
        && storage.userSessions == old(storage.userSessions)
        && (questionsAsked > MaxQuestions ==>
              && sessionEnded && !waitingForAnswer && currentAnswer == old(currentAnswer)
              && speech == Closing(SummaryOf(Levels(BlobOf(storage.knowledge, userId)), FeedbackFor(e.score)))
              && storage.sessions == old(storage.sessions)[sessionId := answered.(endedAt := Some(now))])
        && (questionsAsked <= MaxQuestions ==>
              && sessionEnded == old(sessionEnded) && waitingForAnswer && currentAnswer == ""
              && speech == NextQuestion(FeedbackFor(e.score), lastQuestion.value)
              && storage.sessions == old(storage.sessions)[sessionId := answered])
    {
      var score := TakeAnswer(answer, now);
      var feedback := FeedbackFor(score);
      if questionsAsked > MaxQuestions {
        ghost var answered := storage.sessions[sessionId];
        var summary := EndSessionWithSummary(feedback, score, now);
        UpdateTwice(old(storage.sessions), sessionId, answered, answered.(endedAt := Some(now)));
        return Closing(summary);
      }
      speech := NextQuestion(feedback, lastQuestion.value);
      AwaitAnswer();
    }

    /** The reset after a question has been asked: a fresh answer is awaited. */
    method AwaitAnswer()
      requires Valid()
      modifies this`currentAnswer, this`waitingForAnswer
      ensures Valid() && currentAnswer == "" && waitingForAnswer
      ensures currentTopic == old(currentTopic) && lastQuestion == old(lastQuestion)
      ensures questionsAsked == old(questionsAsked) && sessionEnded == old(sessionEnded)
      ensures storage.sessions == old(storage.sessions) && storage.knowledge == old(storage.knowledge)
      ensures storage.userSessions == old(storage.userSessions)
    {
      currentAnswer := "";
      waitingForAnswer := true;
    }

    /** The current topic and question are those of the plan. */
    ghost predicate Follows(plan: Plan)
      reads this`currentTopic, this`lastQuestion
    {
      currentTopic == Some(plan.topic) && lastQuestion == Some(plan.question)
    }

    /** An answered turn up to the question limit check: the answer to the current
        question is evaluated, stored under the current topic and counted, and the
        next question is planned from the updated store. */
    method TakeAnswer(answer: string, now: string) returns (score: real)
      requires Valid() && HasQuestion()
      modifies this`questionsAsked, this`currentTopic, this`lastQuestion, storage
      ensures sessionEnded == old(sessionEnded) && waitingForAnswer == old(waitingForAnswer)
      ensures currentAnswer == old(currentAnswer)
      ensures Valid() && Follows(PlanFor(Levels(BlobOf(storage.knowledge, userId)), storage.sessions[sessionId].questions, questionsAsked, llm))
      ensures
        var e := Evaluate(llm(EvaluationPrompt(old(lastQuestion).value, old(currentTopic).value, answer)), parseFloat);
        var record := QuestionRecord(old(lastQuestion).value, answer, e.score, old(currentTopic).value, e.weakPoints, now);
        var owner := old(storage.sessions)[sessionId].userId;
        && score == e.score
        && storage.sessions == old(storage.sessions)[sessionId := WithAnswer(old(storage.sessions)[sessionId], record)]
        && storage.knowledge == old(storage.knowledge)[owner := RecordScore(old(storage.Blob(owner)), record.topic, e.score)]
        && storage.userSessions == old(storage.userSessions)
        && questionsAsked == old(questionsAsked) + 1
    {
      score := RecordAnswer(answer, now);
      AskNext();
    }

    /** The first half of an answered turn: evaluate the answer to the current
        question, store it under the current topic and count it. */
    method RecordAnswer(answer: string, now: string) returns (score: real)
      requires Valid() && HasQuestion()
      modifies this`questionsAsked, storage
      ensures Valid()
      ensures currentTopic == old(currentTopic) && lastQuestion == old(lastQuestion)
      ensures sessionEnded == old(sessionEnded) && waitingForAnswer == old(waitingForAnswer)
      ensures currentAnswer == old(currentAnswer)
      ensures
        var e := Evaluate(llm(EvaluationPrompt(lastQuestion.value, currentTopic.value, answer)), parseFloat);
        var record := QuestionRecord(lastQuestion.value, answer, e.score, currentTopic.value, e.weakPoints, now);
        var owner := old(storage.sessions)[sessionId].userId;
        && score == e.score
        && storage.sessions == old(storage.sessions)[sessionId := WithAnswer(old(storage.sessions)[sessionId], record)]
        && storage.knowledge == old(storage.knowledge)[owner := RecordScore(old(storage.Blob(owner)), record.topic, e.score)]
        && storage.userSessions == old(storage.userSessions)
        && questionsAsked == old(questionsAsked) + 1
    {
      var weakPoints;
      score, weakPoints := EvaluateAnswer(lastQuestion.value, answer, currentTopic.value, llm, parseFloat);
      storage.AddQuestion(sessionId, lastQuestion.value, answer, score, currentTopic.value, weakPoints, now);
      questionsAsked := questionsAsked + 1;
    }

    /** The second half of an answered turn: move to the planned topic and question. */
    method AskNext()
      requires Valid()
      modifies this`currentTopic, this`lastQuestion
      ensures questionsAsked == old(questionsAsked) && currentAnswer == old(currentAnswer)
      ensures sessionEnded == old(sessionEnded) && waitingForAnswer == old(waitingForAnswer)
      ensures storage.sessions == old(storage.sessions) && storage.knowledge == old(storage.knowledge)
      ensures storage.userSessions == old(storage.userSessions)
      ensures Valid() && Follows(PlanFor(Levels(BlobOf(storage.knowledge, userId)), storage.sessions[sessionId].questions, questionsAsked, llm))
    {
      var plan := PlanNext(storage, sessionId, userId, questionsAsked, llm);
      currentTopic := Some(plan.topic);
      lastQuestion := Some(plan.question);
    }

    /** `_end_session_with_summary(last_feedback, last_score)`: the session is marked
        ended (no longer waiting), the summary is built from the user's levels, and
        the session's end time is stored. The last score is not used. */
    method EndSessionWithSummary(lastFeedback: string, lastScore: real, now: string) returns (summary: Summary)
      requires Valid()
      modifies this`sessionEnded, this`waitingForAnswer, storage
      ensures Valid() && sessionEnded && !waitingForAnswer
      ensures currentTopic == old(currentTopic) && lastQuestion == old(lastQuestion)
      ensures questionsAsked == old(questionsAsked) && currentAnswer == old(currentAnswer)
      ensures summary == SummaryOf(Levels(BlobOf(old(storage.knowledge), userId)), lastFeedback)
      ensures storage.sessions == old(storage.sessions)[sessionId := old(storage.sessions)[sessionId].(endedAt := Some(now))]
      ensures storage.userSessions == old(storage.userSessions) && storage.knowledge == old(storage.knowledge)
    {
      sessionEnded := true;
      waitingForAnswer := false;
      var knowledge := storage.GetKnowledgeMap(userId);
      summary := BuildSummary(knowledge.topics, lastFeedback);
      storage.EndSession(sessionId, now);
    }

    /** The silence timer firing: the stripped answer is processed only while waiting
        for an answer and when it is not blank; then it is the answer recorded for the
        current question. */
    method SilenceElapsed(now: string) returns (speech: Speech)
      requires Valid() && WithinLimit()
      modifies this, storage
      ensures Valid() && WithinLimit()
      ensures !(old(waitingForAnswer) && Strip(old(currentAnswer)) != "") ==>
        speech == Silent && unchanged(this) && unchanged(storage)
      ensures old(waitingForAnswer) && Strip(old(currentAnswer)) != "" && old(HasQuestion()) ==>
        RecordedAnswer(old(storage.sessions)[sessionId].questions, old(lastQuestion).value, Strip(old(currentAnswer)))
    {
      if waitingForAnswer && Strip(currentAnswer) != "" {
        speech := ProcessAnswer(Strip(currentAnswer), now);
      } else {
        speech := Silent;
      }
    }

    /** The end-of-speech frame (corrected guard): a non-empty collected answer is
        processed as it is, whether or not the processor is waiting for one, through
        `ProcessAnswer`, which ignores it once the session has ended. */
    method UserStoppedSpeaking(now: string) returns (speech: Speech)
      requires Valid() && WithinLimit()
      modifies this, storage
      ensures Valid() && WithinLimit()
      ensures old(currentAnswer) == "" ==> speech == Silent && unchanged(this) && unchanged(storage)
      ensures old(currentAnswer) != "" && old(HasQuestion()) && !old(sessionEnded) ==>
        RecordedAnswer(old(storage.sessions)[sessionId].questions, old(lastQuestion).value, old(currentAnswer))
      ensures old(sessionEnded) ==> speech == Silent && unchanged(this) && unchanged(storage)
    {
      if currentAnswer != "" {
        speech := ProcessAnswer(currentAnswer, now);
      } else {
        speech := Silent;
      }
    }

    /** The end-of-speech frame as the Python code has it: the collected answer goes
        to `ProcessAnswerAsWritten`, so a non-empty answer spoken after the session
        has ended is stored once more and the count passes the limit. */
    method UserStoppedSpeakingAsWritten(now: string) returns (speech: Speech)
      requires Valid()
      modifies this, storage
      ensures Valid()
      ensures old(currentAnswer) == "" ==> speech == Silent && unchanged(this) && unchanged(storage)
      ensures old(currentAnswer) != "" && old(HasQuestion()) ==>
        RecordedAnswer(old(storage.sessions)[sessionId].questions, old(lastQuestion).value, old(currentAnswer))
      ensures old(currentAnswer) != "" && old(HasQuestion()) && old(sessionEnded) && old(WithinLimit()) ==>
        questionsAsked == MaxQuestions + 2 && sessionEnded && !WithinLimit()
    {
      if currentAnswer != "" {
        speech := ProcessAnswerAsWritten(currentAnswer, now);
      } else {
        speech := Silent;
      }
    }

    /** The questions of the session are those before with one more record at the
        end: `answer`, given to `question`. */
    ghost predicate RecordedAnswer(before: seq<QuestionRecord>, question: string, answer: string)
      reads storage
    {
      && sessionId in storage.sessions
      && var qs := storage.sessions[sessionId].questions;
      && |qs| == |before| + 1 && qs[..|before|] == before
      && qs[|before|].question == question && qs[|before|].answer == answer
    }
  }
}
