/** The part of an interview turn that both drivers share: the difficulty and
    feedback tiers, the topic fallback cycle, and the choice of the next question
    from the store's current knowledge map and the session's questions so far. */
module Turn {
  import opened Common
  import opened Storage
  import opened Ranking
  import opened Evaluator
  import QuestionBank

  /** The level assumed for a topic the knowledge map does not have. */
  const NeutralLevel: real := 0.5

  /** A difficulty tier from a topic level: below 0.4 easy, from 0.4 below 0.7
      medium, from 0.7 on hard; each boundary belongs to the higher tier. */
  function DifficultyFor(level: real): (d: string)
    ensures d == "easy" <==> level < 0.4
    ensures d == "medium" <==> 0.4 <= level < 0.7
    ensures d == "hard" <==> 0.7 <= level
  {
    if level < 0.4 then "easy" else if level < 0.7 then "medium" else "hard"
  }

  /** The position of a tier in the order easy < medium < hard. */
  function TierRank(d: string): nat
  {
    if d == "easy" then 0 else if d == "medium" then 1 else 2
  }

  /** A higher level never gets an easier question. */
  lemma DifficultyMonotone(a: real, b: real)
    requires a <= b
    ensures TierRank(DifficultyFor(a)) <= TierRank(DifficultyFor(b))
  {
  }

  /** The difficulty of the next question on `topic`: a topic without a level
      counts as 0.5 and so gets a medium question. */
  function DifficultyOf(levels: Dict<real>, topic: string): (d: string)
    ensures topic !in levels.values ==> d == "medium"
    ensures topic in levels.values ==> d == DifficultyFor(levels.values[topic])
  {
    DifficultyFor(GetOr(levels, topic, NeutralLevel))
  }

  const StrongFeedback := "That was a strong answer. "
  const GoodFeedback := "Good answer, but there's room for improvement. "
  const WeakFeedback := "Let's work on strengthening that. "

  /** The feedback sentence for an answer's score: 8 and above strong, from 6 below 8
      room for improvement, below 6 strengthening. */
  function FeedbackFor(score: real): (f: string)
    ensures f == StrongFeedback <==> 8.0 <= score
    ensures f == GoodFeedback <==> 6.0 <= score < 8.0
    ensures f == WeakFeedback <==> score < 6.0
  {
    if score >= 8.0 then StrongFeedback else if score >= 6.0 then GoodFeedback else WeakFeedback
  }

  /** `[q["topic"] for q in session["questions"]]`. */
  function PreviousTopics(qs: seq<QuestionRecord>): (ts: seq<string>)
    ensures |ts| == |qs|
    ensures forall i :: 0 <= i < |qs| ==> ts[i] == qs[i].topic
  {
    seq(|qs|, i requires 0 <= i < |qs| => qs[i].topic)
  }

  /** The topic of the next question: the selection policy when the knowledge map has
      levels, otherwise the bank's topics in turn, indexed by the question count. */
  function NextTopic(levels: Dict<real>, previous: seq<string>, asked: nat): string
  {
    if |levels.keys| > 0 then SelectNextTopic(levels, previous)
    else QuestionBank.AllTopics()[asked % |QuestionBank.AllTopics()|]
  }

  /** The next topic is a topic with a level when there is one, and otherwise the
      bank topic at position `asked` modulo 5; with two or more levels it is never
      the topic of the question just answered. */
  lemma NextTopicMeaning(levels: Dict<real>, previous: seq<string>, asked: nat)
    ensures |levels.keys| > 0 ==> NextTopic(levels, previous, asked) in levels.values
    ensures |levels.keys| == 0 ==> NextTopic(levels, previous, asked) == QuestionBank.AllTopics()[asked % 5]
    ensures previous != [] && |levels.keys| >= 2 ==> NextTopic(levels, previous, asked) != previous[|previous| - 1]
  {
    if previous != [] && |levels.keys| >= 2 {
      SelectAvoidsLast(levels, previous);
    }
  }

  /** Once a score has been recorded for a topic, the user's knowledge map has a level
      for it, so the next topic always comes from the selection policy and is one the
      user has been scored on. */
  lemma NextTopicAfterRecord(blob: KnowledgeBlob, topic: string, score: real, previous: seq<string>, asked: nat)
    ensures |Levels(RecordScore(blob, topic, score)).keys| > 0
    ensures NextTopic(Levels(RecordScore(blob, topic, score)), previous, asked) in RecordScore(blob, topic, score).values
  {
    var r := RecordScore(blob, topic, score);
    assert topic in r.keys;
    NextTopicMeaning(Levels(r), previous, asked);
  }

  /** The next question of an answered turn: its topic, its difficulty and its text. */
  datatype Plan = Plan(topic: string, difficulty: string, question: string)

  /** The next question for the user's levels and the questions of the session so
      far, `asked` being the updated question count. */
  function PlanFor(levels: Dict<real>, questions: seq<QuestionRecord>, asked: nat, llm: Model): Plan
  {
    var topic := NextTopic(levels, PreviousTopics(questions), asked);
    var difficulty := DifficultyOf(levels, topic);
    Plan(topic, difficulty, GenerateNextQuestion(topic, difficulty, levels, llm))
  }

  /** The planned topic is one with a level when there is one, otherwise the bank
      topic at position `asked` modulo 5; with two or more levels it is never the
      topic of the question just answered. Its difficulty is the one its level calls
      for, and the question is the model's question on that topic at that difficulty. */
  lemma PlanForMeaning(levels: Dict<real>, questions: seq<QuestionRecord>, asked: nat, llm: Model)
    ensures var p := PlanFor(levels, questions, asked, llm);
      && (|levels.keys| > 0 ==> p.topic in levels.values)
      && (|levels.keys| == 0 ==> p.topic == QuestionBank.AllTopics()[asked % 5])
      && (questions != [] && |levels.keys| >= 2 ==> p.topic != questions[|questions| - 1].topic)
      && p.difficulty == DifficultyOf(levels, p.topic)
      && p.question == GenerateNextQuestion(p.topic, p.difficulty, levels, llm)
  {
    NextTopicMeaning(levels, PreviousTopics(questions), asked);
  }

  /** The second half of an answered turn in both drivers: read the user's levels
      and the session's topics from the store, pick the next topic and its
      difficulty, and ask the model for the question. Nothing in the store changes. */
  method PlanNext(storage: SessionStorage, sessionId: string, userId: string, asked: nat, llm: Model)
    returns (plan: Plan)
    requires sessionId in storage.sessions
    ensures plan == PlanFor(Levels(BlobOf(storage.knowledge, userId)), storage.sessions[sessionId].questions, asked, llm)
  {
    var knowledge := storage.GetKnowledgeMap(userId);
    var levels := knowledge.topics;
    var session := storage.GetSession(sessionId);
    var previous := PreviousTopics(session.value.questions);
    var topic;
    if |levels.keys| > 0 {
      topic := SelectNextTopic(levels, previous);
    } else {
      var topics := QuestionBank.AllTopics();
      topic := topics[asked % |topics|];
    }
    var difficulty := DifficultyOf(levels, topic);
    var question := GenerateNextQuestion(topic, difficulty, levels, llm);
    plan := Plan(topic, difficulty, question);
  }
}
