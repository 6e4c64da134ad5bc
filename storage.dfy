/** The session and knowledge store. The key-value store is three maps, one per key
    family the store uses: `session:{id}` holds a session record, `user:{id}:sessions`
    the list of a user's session ids (newest first, as `lpush` builds it), and
    `knowledge:{user}` the user's raw scores per topic. Timestamps and session ids are
    parameters. */
module Storage {
  import opened Common

  // ---------------------------------------------------------------- records

  datatype QuestionRecord = QuestionRecord(
    question: string, answer: string, score: real, topic: string,
    weakPoints: seq<string>, timestamp: string)

  datatype Session = Session(
    id: string, userId: string, startedAt: string, endedAt: Option<string>,
    questions: seq<QuestionRecord>, currentScores: map<string, seq<real>>)

  /** The keys an `update_session` call carries; a key that is absent keeps its value. */
  datatype SessionUpdate = SessionUpdate(
    id: Option<string>, userId: Option<string>, startedAt: Option<string>,
    endedAt: Option<Option<string>>, questions: Option<seq<QuestionRecord>>,
    currentScores: Option<map<string, seq<real>>>)

  /** `session.update(updates)`: a key the update carries takes its new value, a key
      it lacks keeps the old one. */
  function ApplyUpdate(s: Session, u: SessionUpdate): (t: Session)
    ensures u.id.Some? ==> t.id == u.id.value
    ensures u.id.None? ==> t.id == s.id
    ensures u.userId.Some? ==> t.userId == u.userId.value
    ensures u.userId.None? ==> t.userId == s.userId
    ensures u.startedAt.Some? ==> t.startedAt == u.startedAt.value
    ensures u.startedAt.None? ==> t.startedAt == s.startedAt
    ensures u.endedAt.Some? ==> t.endedAt == u.endedAt.value
    ensures u.endedAt.None? ==> t.endedAt == s.endedAt
    ensures u.questions.Some? ==> t.questions == u.questions.value
    ensures u.questions.None? ==> t.questions == s.questions
    ensures u.currentScores.Some? ==> t.currentScores == u.currentScores.value
    ensures u.currentScores.None? ==> t.currentScores == s.currentScores
    ensures u == SessionUpdate(None, None, None, None, None, None) ==> t == s
  {
    Session(
      if u.id.Some? then u.id.value else s.id,
      if u.userId.Some? then u.userId.value else s.userId,
      if u.startedAt.Some? then u.startedAt.value else s.startedAt,
      if u.endedAt.Some? then u.endedAt.value else s.endedAt,
      if u.questions.Some? then u.questions.value else s.questions,
      if u.currentScores.Some? then u.currentScores.value else s.currentScores)
  }

  /** The record `create_session` stores. */
  function NewSession(sessionId: string, userId: string, now: string): Session
  {
    Session(sessionId, userId, now, None, [], map[])
  }

  /** The in-place part of `add_question`: one record goes at the end of `questions`,
      and its score at the end of that topic's list in `current_scores`. */
  function WithAnswer(s: Session, r: QuestionRecord): (t: Session)
    ensures t.questions == s.questions + [r]
    ensures t.currentScores.Keys == s.currentScores.Keys + {r.topic}
    ensures t.currentScores[r.topic] == (if r.topic in s.currentScores then s.currentScores[r.topic] else []) + [r.score]
    ensures forall k :: k in s.currentScores && k != r.topic ==> t.currentScores[k] == s.currentScores[k]
    ensures t.id == s.id && t.userId == s.userId && t.startedAt == s.startedAt && t.endedAt == s.endedAt
  {
    var scores := if r.topic in s.currentScores then s.currentScores else s.currentScores[r.topic := []];
    s.(questions := s.questions + [r], currentScores := scores[r.topic := scores[r.topic] + [r.score]])
  }

  /** A user's knowledge blob: each topic's raw scores in the order they were recorded;
      topics in the order they were first recorded. */
  type KnowledgeBlob = Dict<seq<real>>

  /** `_update_knowledge_map`'s change to the blob: the score goes at the end of its
      topic's list, which is created (last in key order) if absent. */
  function RecordScore(blob: KnowledgeBlob, topic: string, score: real): (r: KnowledgeBlob)
    ensures topic in r.values
    ensures r.values[topic] == (if topic in blob.values then blob.values[topic] else []) + [score]
    ensures r.keys == if topic in blob.values then blob.keys else blob.keys + [topic]
    ensures forall t :: t != topic ==> (t in r.values <==> t in blob.values)
    ensures forall t :: t != topic && t in blob.values ==> r.values[t] == blob.values[t]
  {
    Put(blob, topic, (if topic in blob.values then blob.values[topic] else []) + [score])
  }

  // ---------------------------------------------------------------- reductions

  /** The scores of the questions on `topic`, in the order they were asked. */
  function ScoresFor(qs: seq<QuestionRecord>, topic: string): seq<real>
  {
    if qs == [] then []
    else ScoresFor(qs[..|qs| - 1], topic) + (if qs[|qs| - 1].topic == topic then [qs[|qs| - 1].score] else [])
  }

  /** All scores of a session, in order. */
  function AllScores(qs: seq<QuestionRecord>): (r: seq<real>)
    ensures |r| == |qs|
  {
    if qs == [] then [] else AllScores(qs[..|qs| - 1]) + [qs[|qs| - 1].score]
  }

  function Topics(qs: seq<QuestionRecord>): set<string>
  {
    set i | 0 <= i < |qs| :: qs[i].topic
  }

  /** The grouping `{topic: [scores...]}` that `calculate_session_scores` and the
      history loop of `get_knowledge_map` build. */
  function Grouping(qs: seq<QuestionRecord>): map<string, seq<real>>
  {
    map t | t in Topics(qs) :: ScoresFor(qs, t)
  }

  /** Per-topic means of one session, divided by 10. */
  function TopicAverages(qs: seq<QuestionRecord>): map<string, real>
  {
    map t | t in Topics(qs) :: Mean(ScoresFor(qs, t)) / 10.0
  }

  /** The raw (0-10 scale) mean of a session's scores; 0 without questions. */
  function RawAverage(qs: seq<QuestionRecord>): real
  {
    Mean(AllScores(qs))
  }

  /** `scores[-3:] if len(scores) >= 3 else scores`. */
  function RecentScores(scores: seq<real>): seq<real>
  {
    if |scores| >= 3 then scores[|scores| - 3..] else scores
  }

  /** A topic's level: the mean of its recent window divided by 10, or 0 if empty. */
  function RecentLevel(scores: seq<real>): real
  {
    var recent := RecentScores(scores);
    if |recent| > 0 then Sum(recent) / (|recent| as real) / 10.0 else 0.0
  }

  /** The `topics` part of `get_knowledge_map`: one level per topic of the blob, in
      the blob's key order. */
  function Levels(blob: KnowledgeBlob): (r: Dict<real>)
    ensures r.keys == blob.keys
  {
    RawDict(blob.keys, map k | k in blob.values :: RecentLevel(blob.values[k]))
  }

  datatype SessionReport = SessionReport(
    id: string, date: string, startedAt: string, endedAt: Option<string>,
    questionsAsked: nat, averageScore: real, questions: seq<QuestionRecord>)

  /** The summary `get_user_sessions` builds for one stored session. */
  function ReportOf(s: Session): SessionReport
  {
    SessionReport(s.id, s.startedAt, s.startedAt, s.endedAt, |s.questions|, RawAverage(s.questions), s.questions)
  }

  /** The summaries of the stored sessions among `ids`, in list order; an id with
      no stored session is skipped. */
  function Reports(sessions: map<string, Session>, ids: seq<string>): seq<SessionReport>
  {
    if ids == [] then []
    else
      var id := ids[|ids| - 1];
      Reports(sessions, ids[..|ids| - 1]) + (if id in sessions then [ReportOf(sessions[id])] else [])
  }

  function Reverse<T>(s: seq<T>): (r: seq<T>)
    ensures |r| == |s| && forall i :: 0 <= i < |s| ==> r[i] == s[|s| - 1 - i]
  {
    seq(|s|, i requires 0 <= i < |s| => s[|s| - 1 - i])
  }

  /** One entry of the progression history: its 1-based position (oldest first) and
      the topic averages of that session. The position is a field of its own, not a
      key among the topics (see `GroupAsWritten`). */
  datatype HistoryEntry = HistoryEntry(session: nat, averages: map<string, real>)

  function History(chronological: seq<SessionReport>): (h: seq<HistoryEntry>)
    ensures |h| == |chronological|
  {
    seq(|chronological|, i requires 0 <= i < |chronological| =>
      HistoryEntry(i + 1, TopicAverages(chronological[i].questions)))
  }

  /** `calculate_improvement`: for the topics present in both the first and the last
      history entry, last minus first; nothing with fewer than two entries. */
  function Improvement(history: seq<HistoryEntry>): map<string, real>
  {
    if |history| < 2 then map[]
    else
      var first, last := history[0].averages, history[|history| - 1].averages;
      map t | t in last && t in first :: last[t] - first[t]
  }

  datatype KnowledgeReport = KnowledgeReport(topics: Dict<real>, history: seq<HistoryEntry>)

  /** What `get_knowledge_map` returns for a knowledge blob and the user's stored
      sessions (newest first). */
  function Knowledge(blob: KnowledgeBlob, reports: seq<SessionReport>): KnowledgeReport
  {
    KnowledgeReport(Levels(blob), History(Reverse(reports)))
  }

  // ---------------------------------------------------------------- the history entry as written

  /** A value of the history entry dict `get_knowledge_map` builds: the session number stored under the
      key "session", or a topic's list of scores. */
  datatype EntryValue = Number(n: int) | ScoreList(scores: seq<real>)

  /** The grouping loop of `get_knowledge_map`'s history construction, run over the entry dict
      that starts as `{"session": idx}`. `None` is the AttributeError raised when a
      question's topic is itself "session": the loop then appends to the number. */
  function GroupAsWritten(entry: map<string, EntryValue>, qs: seq<QuestionRecord>): Option<map<string, EntryValue>>
    decreases |qs|
  {
    if qs == [] then Some(entry)
    else
      var t := qs[0].topic;
      var e := if t in entry then entry else entry[t := ScoreList([])];
      match e[t]
      case Number(_) => None
      case ScoreList(s) => GroupAsWritten(e[t := ScoreList(s + [qs[0].score])], qs[1..])
  }

  // ---------------------------------------------------------------- grouping loop

  lemma ScoresForSnoc(qs: seq<QuestionRecord>, q: QuestionRecord, t: string)
    ensures ScoresFor(qs + [q], t) == ScoresFor(qs, t) + (if q.topic == t then [q.score] else [])
  {
    assert (qs + [q])[..|qs|] == qs;
  }

  lemma TopicsSnoc(qs: seq<QuestionRecord>, q: QuestionRecord)
    ensures Topics(qs + [q]) == Topics(qs) + {q.topic}
  {
    var r := qs + [q];
    forall t | t in Topics(qs) ensures t in Topics(r) {
      var i :| 0 <= i < |qs| && qs[i].topic == t;
      assert r[i].topic == t;
    }
    assert r[|qs|].topic == q.topic;
  }

  /** Grouping one more question extends its topic's list, creating it if needed. */
  lemma GroupingSnoc(qs: seq<QuestionRecord>, q: QuestionRecord)
    ensures Grouping(qs + [q]) ==
      Grouping(qs)[q.topic := (if q.topic in Grouping(qs) then Grouping(qs)[q.topic] else []) + [q.score]]
  {
    forall t ensures ScoresFor(qs + [q], t) == ScoresFor(qs, t) + (if q.topic == t then [q.score] else []) {
      ScoresForSnoc(qs, q, t);
    }
    ScoresForNonEmpty(qs, q.topic);
    TopicsSnoc(qs, q);
    var g, g2 := Grouping(qs), Grouping(qs + [q]);
    var e := g[q.topic := (if q.topic in g then g[q.topic] else []) + [q.score]];
    assert g2.Keys == e.Keys;
    forall t | t in g2 ensures g2[t] == e[t] {
      if t != q.topic {
        assert t in g;
      }
    }
  }

  /** The topic loop shared by `calculate_session_scores` and `get_knowledge_map`. */
  method GroupByTopic(qs: seq<QuestionRecord>) returns (groups: map<string, seq<real>>)
    ensures groups == Grouping(qs)
  {
    groups := map[];
    var i := 0;
    while i < |qs|
      invariant 0 <= i <= |qs|
      invariant groups == Grouping(qs[..i])
    {
      var q := qs[i];
      GroupingSnoc(qs[..i], q);
      assert qs[..i + 1] == qs[..i] + [q];
      if q.topic !in groups {
        groups := groups[q.topic := []];
      }
      groups := groups[q.topic := groups[q.topic] + [q.score]];
      i := i + 1;
    }
    assert qs[..|qs|] == qs;
  }

  /** The per-topic averages of one session, as both callers of the grouping loop
      compute them: `sum(scores) / len(scores) / 10`. */
  method SessionAverages(qs: seq<QuestionRecord>) returns (averages: map<string, real>)
    ensures averages == TopicAverages(qs)
  {
    var groups := GroupByTopic(qs);
    forall t | t in groups ensures |groups[t]| > 0 {
      ScoresForNonEmpty(qs, t);
    }
    averages := map t | t in groups :: Sum(groups[t]) / (|groups[t]| as real) / 10.0;
  }

  /** The level loop of `get_knowledge_map`. */
  method ComputeLevels(blob: KnowledgeBlob) returns (topics: Dict<real>)
    ensures topics == Levels(blob)
  {
    topics := EmptyDict();
    var i := 0;
    while i < |blob.keys|
      invariant 0 <= i <= |blob.keys|
      invariant topics.keys == blob.keys[..i]
      invariant forall k :: k in topics.values ==> k in blob.values && topics.values[k] == RecentLevel(blob.values[k])
    {
      var topic := blob.keys[i];
      assert blob.keys[..i + 1] == blob.keys[..i] + [topic];
      assert topic !in topics.values by {
        assert forall j :: 0 <= j < i ==> blob.keys[j] != blob.keys[i];
      }
      topics := Put(topics, topic, RecentLevel(blob.values[topic]));
      i := i + 1;
    }
    assert blob.keys[..i] == blob.keys;
    assert topics.values.Keys == Levels(blob).values.Keys;
    assert topics.values == Levels(blob).values;
  }

  /** The history loop of `get_knowledge_map`, over the sessions oldest first. */
  method BuildHistory(chronological: seq<SessionReport>) returns (history: seq<HistoryEntry>)
    ensures history == History(chronological)
  {
    history := [];
    var idx := 0;
    while idx < |chronological|
      invariant 0 <= idx <= |chronological|
      invariant |history| == idx
      invariant forall k :: 0 <= k < idx ==> history[k] == HistoryEntry(k + 1, TopicAverages(chronological[k].questions))
    {
      var averages := SessionAverages(chronological[idx].questions);
      history := history + [HistoryEntry(idx + 1, averages)];
      idx := idx + 1;
    }
  }

  /** The comparison loop of `calculate_improvement`. */
  method ImprovementOf(history: seq<HistoryEntry>) returns (improvement: map<string, real>)
    ensures improvement == Improvement(history)
  {
    if |history| < 2 {
      return map[];
    }
    var first, last := history[0].averages, history[|history| - 1].averages;
    improvement := map[];
    var remaining := last.Keys;
    while remaining != {}
      invariant remaining <= last.Keys
      invariant improvement == map t | t in last.Keys - remaining && t in first :: last[t] - first[t]
      decreases remaining
    {
      var topic :| topic in remaining;
      if topic in first {
        improvement := improvement[topic := last[topic] - first[topic]];
      }
      remaining := remaining - {topic};
    }
  }

  lemma {:induction false} ScoresForNonEmpty(qs: seq<QuestionRecord>, t: string)
    ensures ScoresFor(qs, t) != [] <==> t in Topics(qs)
  {
    if qs != [] {
      var init := qs[..|qs| - 1];
      ScoresForNonEmpty(init, t);
      assert qs == init + [qs[|qs| - 1]];
      assert Topics(qs) == Topics(init) + {qs[|qs| - 1].topic};
    }
  }

  lemma {:induction false} ScoresForBounds(qs: seq<QuestionRecord>, t: string)
    requires forall i :: 0 <= i < |qs| ==> 0.0 <= qs[i].score <= 10.0
    ensures forall i :: 0 <= i < |ScoresFor(qs, t)| ==> 0.0 <= ScoresFor(qs, t)[i] <= 10.0
  {
    if qs != [] {
      ScoresForBounds(qs[..|qs| - 1], t);
    }
  }

  /** A session's topic averages: exactly the topics asked in it, each the mean of its
      (non-empty) list of scores divided by 10, in [0, 1] when the scores are in [0, 10]. */
  lemma TopicAveragesMeaning(qs: seq<QuestionRecord>)
    ensures TopicAverages(qs).Keys == set i | 0 <= i < |qs| :: qs[i].topic
    ensures forall t :: t in TopicAverages(qs) ==>
      |ScoresFor(qs, t)| > 0 && TopicAverages(qs)[t] == Sum(ScoresFor(qs, t)) / (|ScoresFor(qs, t)| as real) / 10.0
    ensures (forall i :: 0 <= i < |qs| ==> 0.0 <= qs[i].score <= 10.0) ==>
      forall t :: t in TopicAverages(qs) ==> 0.0 <= TopicAverages(qs)[t] <= 1.0
  {
    forall t | t in TopicAverages(qs) ensures |ScoresFor(qs, t)| > 0 {
      ScoresForNonEmpty(qs, t);
    }
    if forall i :: 0 <= i < |qs| ==> 0.0 <= qs[i].score <= 10.0 {
      forall t | t in TopicAverages(qs) ensures 0.0 <= TopicAverages(qs)[t] <= 1.0 {
        ScoresForNonEmpty(qs, t);
        ScoresForBounds(qs, t);
        MeanBounds(ScoresFor(qs, t), 0.0, 10.0);
      }
    }
  }

  /** A level is the mean of the last min(3, N) scores divided by 10 (0 with no
      scores), and lies in [0, 1] when every recorded score lies in [0, 10]. */
  lemma RecentLevelMeaning(scores: seq<real>)
    ensures var n := if |scores| < 3 then |scores| else 3;
      RecentLevel(scores) == Mean(scores[|scores| - n..]) / 10.0
    ensures (forall i :: 0 <= i < |scores| ==> 0.0 <= scores[i] <= 10.0) ==> 0.0 <= RecentLevel(scores) <= 1.0
  {
    var recent := RecentScores(scores);
    assert |scores| < 3 ==> scores[0..] == scores;
    if |recent| > 0 && forall i :: 0 <= i < |scores| ==> 0.0 <= scores[i] <= 10.0 {
      assert forall i :: 0 <= i < |recent| ==> recent[i] == scores[|scores| - |recent| + i];
      MeanBounds(recent, 0.0, 10.0);
    }
  }

  /** Scores 3, 4, 5 and then 6 give the level (4 + 5 + 6) / 3 / 10. */
  lemma RecentWindowExample()
    ensures RecentLevel([3.0, 4.0, 5.0, 6.0]) == 0.5
  {
    var w := [4.0, 5.0, 6.0];
    assert RecentScores([3.0, 4.0, 5.0, 6.0]) == w;
    assert [4.0][..0] == [] && [4.0, 5.0][..1] == [4.0] && w[..2] == [4.0, 5.0];
    assert Sum([4.0]) == 4.0;
    assert Sum([4.0, 5.0]) == 9.0;
    assert Sum(w) == 15.0;
  }

  /** The raw session average is the plain mean of all scores, 0 with no questions, and
      stays on the 0-10 scale of the scores. */
  lemma {:induction false} RawAverageMeaning(qs: seq<QuestionRecord>)
    ensures |qs| == 0 ==> RawAverage(qs) == 0.0
    ensures forall i :: 0 <= i < |qs| ==> AllScores(qs)[i] == qs[i].score
    ensures (|qs| > 0 && forall i :: 0 <= i < |qs| ==> 0.0 <= qs[i].score <= 10.0) ==> 0.0 <= RawAverage(qs) <= 10.0
  {
    if qs != [] {
      RawAverageMeaning(qs[..|qs| - 1]);
      if forall i :: 0 <= i < |qs| ==> 0.0 <= qs[i].score <= 10.0 {
        MeanBounds(AllScores(qs), 0.0, 10.0);
      }
    }
  }

  /** Pushing an id at the front of the list puts its report first. */
  lemma {:induction false} ReportsCons(sessions: map<string, Session>, id: string, ids: seq<string>)
    ensures Reports(sessions, [id] + ids) == (if id in sessions then [ReportOf(sessions[id])] else []) + Reports(sessions, ids)
  {
    if ids != [] {
      var init := ids[..|ids| - 1];
      ReportsCons(sessions, id, init);
      assert ([id] + ids)[..|ids|] == [id] + init;
    }
  }

  /** A freshly created session is the first one `get_user_sessions` reports: no
      questions, an average of 0, not ended. */
  lemma NewSessionReportedFirst(sessions: map<string, Session>, ids: seq<string>, sessionId: string, userId: string, now: string)
    ensures var r := Reports(sessions[sessionId := NewSession(sessionId, userId, now)], [sessionId] + ids);
      |r| > 0 && r[0] == SessionReport(sessionId, now, now, None, 0, 0.0, [])
  {
    ReportsCons(sessions[sessionId := NewSession(sessionId, userId, now)], sessionId, ids);
  }

  /** Reports never invent a session: each is the report of a stored session named in the list. */
  lemma {:induction false} ReportsFromStored(sessions: map<string, Session>, ids: seq<string>)
    ensures |Reports(sessions, ids)| <= |ids|
    ensures forall r :: r in Reports(sessions, ids) ==> exists id :: id in ids && id in sessions && r == ReportOf(sessions[id])
  {
    if ids != [] {
      var init := ids[..|ids| - 1];
      ReportsFromStored(sessions, init);
      assert forall id :: id in init ==> id in ids;
    }
  }

  /** The history has one entry per stored session, oldest first, numbered from 1. */
  lemma HistoryOrder(reports: seq<SessionReport>, i: nat)
    requires i < |reports|
    ensures |History(Reverse(reports))| == |reports|
    ensures History(Reverse(reports))[i] == HistoryEntry(i + 1, TopicAverages(reports[|reports| - 1 - i].questions))
  {
  }

  /** The improvement compares the oldest and the newest stored sessions: for each topic
      asked in both, the newest session's average minus the oldest's. */
  lemma ImprovementMeaning(reports: seq<SessionReport>)
    ensures |reports| < 2 ==> Improvement(History(Reverse(reports))) == map[]
    ensures |reports| >= 2 ==>
      var oldest, newest := reports[|reports| - 1].questions, reports[0].questions;
      && Improvement(History(Reverse(reports))).Keys == Topics(oldest) * Topics(newest)
      && forall t :: t in Topics(oldest) * Topics(newest) ==>
           Improvement(History(Reverse(reports)))[t] == TopicAverages(newest)[t] - TopicAverages(oldest)[t]
  {
    if |reports| >= 2 {
      var h := History(Reverse(reports));
      assert h[0].averages == TopicAverages(reports[|reports| - 1].questions);
      assert h[|h| - 1].averages == TopicAverages(reports[0].questions);
    }
  }

  /** Counterexample: a question whose topic is "session" makes `get_knowledge_map`'s history
      construction raise instead of producing an entry. */
  lemma SessionTopicBreaksHistory(q: QuestionRecord)
    requires q.topic == "session"
    ensures GroupAsWritten(map["session" := Number(1)], [q]).None?
  {
  }

  /** A one-question session has that question's score, divided by 10, as its only
      average. */
  lemma TopicAveragesSingle(q: QuestionRecord)
    ensures TopicAverages([q]) == map[q.topic := q.score / 10.0]
  {
    TopicsSingle(q);
    MeanSingle(q.score);
    var m := TopicAverages([q]);
    var w := map[q.topic := q.score / 10.0];
    assert m.Keys == w.Keys;
    assert m[q.topic] == w[q.topic];
  }

  /** The mean of a single score is that score. */
  lemma MeanSingle(x: real)
    ensures Mean([x]) == x
  {
    assert [x][..0] == [];
    assert Sum([x]) == x;
  }

  /** A one-question session has that question's topic only, with its one score. */
  lemma TopicsSingle(q: QuestionRecord)
    ensures Topics([q]) == {q.topic}
    ensures ScoresFor([q], q.topic) == [q.score]
  {
    var qs := [q];
    assert qs[..0] == [];
    assert qs[0].topic == q.topic;
  }

  /** The corrected entry keeps such a topic: its average is recorded like any other,
      beside the entry's own number. */
  lemma SessionTopicKeptInHistory(q: QuestionRecord, r: SessionReport)
    requires q.topic == "session" && r.questions == [q]
    ensures History([r])[0] == HistoryEntry(1, map["session" := q.score / 10.0])
  {
    TopicAveragesSingle(q);
  }

  // ---------------------------------------------------------------- the store

  /** The knowledge blob of a user; an absent `knowledge:{user}` key reads as `{}`. */
  function BlobOf(knowledge: map<string, KnowledgeBlob>, userId: string): KnowledgeBlob
  {
    if userId in knowledge then knowledge[userId] else EmptyDict()
  }

  class SessionStorage {
    /** `session:{id}` */
    var sessions: map<string, Session>
    /** `user:{id}:sessions`, newest first */
    var userSessions: map<string, seq<string>>
    /** `knowledge:{user}` */
    var knowledge: map<string, KnowledgeBlob>

    constructor ()
      ensures sessions == map[] && userSessions == map[] && knowledge == map[]
    {
      sessions := map[];
      userSessions := map[];
      knowledge := map[];
    }

    /** `get_session(id)`. */
    function GetSession(id: string): Option<Session>
      reads this
    {
      if id in sessions then Some(sessions[id]) else None
    }

    /** `lrange(user:{id}:sessions, 0, -1)`: an absent list reads as empty. */
    function SessionIds(userId: string): seq<string>
      reads this
    {
      if userId in userSessions then userSessions[userId] else []
    }

    /** The stored knowledge blob of a user; an absent key reads as `{}`. */
    function Blob(userId: string): KnowledgeBlob
      reads this
    {
      BlobOf(knowledge, userId)
    }

    /** The value `get_knowledge_map(user)` computes from the current store. */
    function KnowledgeOf(userId: string): KnowledgeReport
      reads this
    {
      Knowledge(Blob(userId), Reports(sessions, SessionIds(userId)))
    }

    /** `create_session(user)`, with the generated id and the clock as parameters. */
    method CreateSession(userId: string, sessionId: string, now: string) returns (id: string)
      modifies this
      ensures id == sessionId
      ensures sessions == old(sessions)[sessionId := NewSession(sessionId, userId, now)]
      ensures userSessions == old(userSessions)[userId := [sessionId] + old(SessionIds(userId))]
      ensures knowledge == old(knowledge)
    {
      sessions := sessions[sessionId := NewSession(sessionId, userId, now)];
      userSessions := userSessions[userId := [sessionId] + SessionIds(userId)];
      id := sessionId;
    }

    /** `update_session(id, updates)`: a no-op for an unknown id. */
    method UpdateSession(id: string, updates: SessionUpdate)
      modifies this
      ensures id in old(sessions) ==> sessions == old(sessions)[id := ApplyUpdate(old(sessions)[id], updates)]
      ensures id !in old(sessions) ==> sessions == old(sessions)
      ensures userSessions == old(userSessions) && knowledge == old(knowledge)
    {
      var session := GetSession(id);
      if session.Some? {
        sessions := sessions[id := ApplyUpdate(session.value, updates)];
      }
    }

    /** `add_question(...)`: a no-op for an unknown session; otherwise the record is
        appended to the session and the score to the knowledge blob of the session's user. */
    method AddQuestion(id: string, question: string, answer: string, score: real, topic: string,
                       weakPoints: seq<string>, now: string)
      modifies this
      ensures id !in old(sessions) ==> sessions == old(sessions) && knowledge == old(knowledge)
      ensures id in old(sessions) ==>
        var user := old(sessions)[id].userId;
        && sessions == old(sessions)[id := WithAnswer(old(sessions)[id], QuestionRecord(question, answer, score, topic, weakPoints, now))]
        && knowledge == old(knowledge)[user := RecordScore(old(Blob(user)), topic, score)]
      ensures userSessions == old(userSessions)
    {
      var session := GetSession(id);
      if session.None? {
        return;
      }
      var s := session.value;
      var record := QuestionRecord(question, answer, score, topic, weakPoints, now);
      var scores := s.currentScores;
      if topic !in scores {
        scores := scores[topic := []];
      }
      scores := scores[topic := scores[topic] + [score]];
      s := s.(questions := s.questions + [record], currentScores := scores);
      sessions := sessions[id := s];
      UpdateKnowledgeMap(s.userId, topic, score);
    }

    /** `_update_knowledge_map(user, topic, score)`. */
    method UpdateKnowledgeMap(userId: string, topic: string, score: real)
      modifies this
      ensures knowledge == old(knowledge)[userId := RecordScore(old(Blob(userId)), topic, score)]
      ensures sessions == old(sessions) && userSessions == old(userSessions)
    {
      var blob := Blob(userId);
      ghost var expected := RecordScore(blob, topic, score);
      if topic !in blob.values {
        blob := Put(blob, topic, []);
      }
      blob := Put(blob, topic, blob.values[topic] + [score]);
      assert blob.keys == expected.keys && blob.values == expected.values;
      knowledge := knowledge[userId := blob];
    }

    /** `end_session(id)`: sets `ended_at` and nothing else; a no-op for an unknown id. */
    method EndSession(id: string, now: string)
      modifies this
      ensures id in old(sessions) ==> sessions == old(sessions)[id := old(sessions)[id].(endedAt := Some(now))]
      ensures id !in old(sessions) ==> sessions == old(sessions)
      ensures userSessions == old(userSessions) && knowledge == old(knowledge)
    {
      var session := GetSession(id);
      if session.Some? {
        sessions := sessions[id := session.value.(endedAt := Some(now))];
      }
    }

    /** `calculate_session_scores(id)`: the per-topic averages of the session, `{}` for
        an unknown id. */
    method CalculateSessionScores(id: string) returns (scores: map<string, real>)
      ensures id !in sessions ==> scores == map[]
      ensures id in sessions ==> scores == TopicAverages(sessions[id].questions)
    {
      var session := GetSession(id);
      if session.None? {
        return map[];
      }
      scores := SessionAverages(session.value.questions);
    }

    /** `get_user_sessions(user)`: a report per stored session of the user, in the
        order of the id list (newest first). */
    method GetUserSessions(userId: string) returns (reports: seq<SessionReport>)
      ensures reports == Reports(sessions, SessionIds(userId))
    {
      var ids := SessionIds(userId);
      reports := [];
      var i := 0;
      while i < |ids|
        invariant 0 <= i <= |ids|
        invariant reports == Reports(sessions, ids[..i])
      {
        assert ids[..i + 1][..i] == ids[..i];
        var session := GetSession(ids[i]);
        if session.Some? {
          var s := session.value;
          var total := 0.0;
          var count := 0;
          var j := 0;
          while j < |s.questions|
            invariant 0 <= j <= |s.questions|
            invariant count == j
            invariant total == Sum(AllScores(s.questions[..j]))
          {
            assert s.questions[..j + 1][..j] == s.questions[..j];
            total := total + s.questions[j].score;
            count := count + 1;
            j := j + 1;
          }
          assert s.questions[..j] == s.questions;
          reports := reports + [SessionReport(s.id, s.startedAt, s.startedAt, s.endedAt, |s.questions|,
                                              if count > 0 then total / (count as real) else 0.0, s.questions)];
        }
        i := i + 1;
      }
      assert ids[..i] == ids;
    }

    /** `get_knowledge_map(user)`: the level of every recorded topic and the
        session-by-session history, oldest session first. */
    method GetKnowledgeMap(userId: string) returns (report: KnowledgeReport)
      ensures report == KnowledgeOf(userId)
      ensures report.topics == Levels(BlobOf(knowledge, userId))
    {
      var topics := ComputeLevels(Blob(userId));
      var reports := GetUserSessions(userId);
      var history := BuildHistory(Reverse(reports));
      report := KnowledgeReport(topics, history);
    }

    /** `calculate_improvement(user)`. */
    method CalculateImprovement(userId: string) returns (improvement: map<string, real>)
      ensures improvement == Improvement(KnowledgeOf(userId).history)
    {
      var report := GetKnowledgeMap(userId);
      improvement := ImprovementOf(report.history);
    }
  }
}
