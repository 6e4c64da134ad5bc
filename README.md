# Forge interview coach — verified model of the interview core

Forge is a mock-interview coach. A user answers interview questions one after
another. A language model scores each answer from 0 to 10 and lists weak points.
Every score goes into a per-user knowledge map. The next question targets the
user's weakest topic, at a difficulty that matches the user's level on it.

This project models the parts of the back end that make those decisions:

- `storage.dfy` (module `Storage`): the session and knowledge store, the
  class `SessionStorage`. It holds three maps, one per key family of the
  key-value store: session records, each user's list of session ids (newest
  first), and each user's raw scores per topic. It also covers the derived
  reads: per-session topic averages, session reports, topic levels over the
  last three scores, the session-by-session history, and the improvement
  between the first and the last session.
- `evaluator.dfy` (module `Evaluator`): the next-topic policy. It also covers the
  pick of the two weakest topics for the question prompt, and how the model's
  reply is turned into a score and weak points, with the fixed fallbacks.
- `questionbank.dfy` (module `QuestionBank`): the static bank of 5 topics × 3
  difficulties × 3 questions, and the lookup with its fallbacks.
- `turn.dfy` (module `Turn`): the turn logic that both drivers repeat. This is
  the difficulty tiers, the feedback tiers, the topic fallback cycle, and the
  plan for the next question (`PlanFor`).
- `bot.dfy` (module `Bot`): the text driver, the class `InterviewBot`.
- `pipecat.dfy` (module `Voice`): the voice driver, the class
  `InterviewBotProcessor`. It models:
  - its state flags;
  - the first question;
  - answer processing with the three-answer limit;
  - the closing summary;
  - the guards of the transcript handler, the silence timer and the
    end-of-speech frame.
- `common.dfy`, `ranking.dfy` and `text.dfy` hold the supporting definitions:
  - an insertion-ordered `Dict` for Python dicts whose key order shows through;
  - sums and means;
  - Python's stable `sorted` as an insertion sort, with the first-eligible
    scan over it;
  - the few `str` operations the reply parser uses.

Things outside the process are parameters:
- The language model is a function `Model = Prompt -> Reply`. A `Reply` is
  either the text of the reply or `Failed`, which stands for any exception from
  the call.
- `float()` is a parameter `parseFloat`.
- `random.choice` is a draw index `choice`.
- The clock is a timestamp `now`.
- The generated session id is a parameter.

Scores are `real`s.

Two behaviours of the code shape the contracts:
- Topics with equal levels are not ordered by name. The code's stable sort
  keeps the order in which topics were first recorded, and so does the model
  (`Ranking.Sort`).
- Scores are not range-checked. The code stores whatever the evaluator
  returns, and so does the model. Range facts are therefore stated
  conditionally: levels lie in [0, 1] *when* the scores lie in [0, 10].

## Model

| member | source | states |
|---|---|---|
| Common.MeanBounds | backend/storage.py:115 | a mean of values that all lie in [lo, hi] lies in [lo, hi] |
| Common.Put | backend/storage.py:86-89 | `d[k] = v`: the new value is stored; an existing key keeps its place and a new key goes last |
| Common.Items | backend/evaluator.py:122 | `dict.items()` lists every key once, in insertion order, each with its value |
| Common.Values | backend/pipecat_bot.py:243 | `dict.values()` lists every key's value, in key order |
| Ranking.Sort | backend/evaluator.py:122 | the sort keeps the length and the multiset of the items, so nothing is lost or added |
| Ranking.SortSorted | backend/evaluator.py:122 | the sort result is ordered by level (descending for `reverse=True`) and is a permutation of its input |
| Ranking.FirstEligible | backend/evaluator.py:124-126 | the scan returns an element that is not the last-asked topic, and returns none exactly when every element is the last-asked topic |
| Ranking.NoneEligibleOfSort | backend/evaluator.py:122-127 | sorting does not change whether some topic differs from the last-asked one |
| Ranking.FirstEligibleOfSort | backend/evaluator.py:122-126 | the first eligible element of the stable sort is the lowest-level eligible element, ties going to the earlier-inserted one |
| Ranking.FirstLowestUnique | backend/evaluator.py:122-126 | "lowest eligible, earliest on ties" names at most one element, so the pick is fully determined |
| PyText.Strip | backend/evaluator.py:59-60 | `strip()` is no longer than its input and neither starts nor ends with whitespace |
| PyText.LStripCuts | backend/evaluator.py:59-60 | `lstrip()` is the suffix of its input left after cutting whitespace only |
| PyText.RStripCuts | backend/evaluator.py:59-60 | `rstrip()` is the prefix of its input left after cutting whitespace only |
| PyText.StripTrims | backend/evaluator.py:59-60 | `strip()` returns a slice of its input that neither starts nor ends with whitespace, and every character cut off before or after it is whitespace |
| PyText.Split | backend/evaluator.py:59 | `split('\n')` returns at least one piece |
| PyText.SplitJoin | backend/evaluator.py:59 | joining the split pieces gives back the input, and no piece holds the separator |
| PyText.Remove | backend/evaluator.py:60 | `replace("SCORE:", "")` never lengthens the line |
| PyText.RemoveAbsent | backend/evaluator.py:60 | a line without the marker is left as it is |
| PyText.RemoveLeading | backend/evaluator.py:60 | the marker followed by text that does not hold it again is removed, leaving that text exactly |
| Evaluator.SelectNextTopic | backend/evaluator.py:115-128 | with no levels, the topic is the default cycle entry at `len(previous) % 4`; otherwise it is a topic that has a level |
| Evaluator.SelectAvoidsLast | backend/evaluator.py:122-126 | with two or more levelled topics, the topic asked last is never picked again |
| Evaluator.SelectIsFirstLowest | backend/evaluator.py:122-126 | when some topic differs from the last-asked one, the pick is the lowest-level such topic, ties going to the earlier-recorded topic |
| Evaluator.SelectOnlyTopic | backend/evaluator.py:128 | when the only levelled topic is the one asked last, it is picked anyway |
| Evaluator.SortedItemsOfLevels | backend/evaluator.py:87 | every entry of the ascending sort is a levelled topic paired with its own level |
| Evaluator.WeakTopicsPrefix | backend/evaluator.py:87-88 | the weak topics are the first min(2, n) topics of the ascending sort |
| Evaluator.SortedPrefixLowest | backend/evaluator.py:87 | a topic outside the first n of the ascending sort has a level no lower than any of those n |
| Evaluator.WeakTopicsAreLowest | backend/evaluator.py:87-88 | there are at most two weak topics, each has a level, and none has a higher level than a topic left out |
| Evaluator.ScoreLines | backend/evaluator.py:59 | every selected line starts with `SCORE:` once stripped |
| Evaluator.ScoreLinesEmpty | backend/evaluator.py:59 | the comprehension is empty exactly when no line starts with `SCORE:` once stripped |
| Evaluator.ScoreLinesFirst | backend/evaluator.py:59 | `[0]` of the comprehension is the first line that starts with `SCORE:` once stripped |
| Evaluator.ScoreOnMarkedLine | backend/evaluator.py:60-64 | a line `SCORE:` + text scores `float(text.strip())`, or 5 when that does not parse |
| Evaluator.WeakPointsInSection | backend/evaluator.py:68-75 | once inside the weak-points section, the loop collects exactly the text of every dash line, in order |
| Evaluator.WeakPointsAfterMarker | backend/evaluator.py:68-75 | the weak points are the dash lines after the first line that holds `WEAK_POINTS:`; lines before it contribute nothing |
| Evaluator.NoMarkerNoWeakPoints | backend/evaluator.py:66-68 | a reply without a `WEAK_POINTS:` line has no weak points |
| Evaluator.ScoreFallbacks | backend/evaluator.py:56-81 | a failed call gives score 5 with the API-error point; a marker that starts no line is caught the same way; no marker gives 5; otherwise the score is the one on the first line that starts with the marker |
| Evaluator.EvaluateAnswer | backend/evaluator.py:21-81 | the returned score and weak points are the evaluation of the model's reply to this question, topic and answer |
| Evaluator.ParseScore | backend/evaluator.py:56-64 | no marker gives 5; a marker that starts no line gives the IndexError case; otherwise the score on the first line that starts with the marker |
| Evaluator.CollectWeakPoints | backend/evaluator.py:67-75 | the loop's list equals the recursive reading of the weak-points section |
| Evaluator.GenerateNextQuestion | backend/evaluator.py:84-112 | a failed call gives the fixed fallback question on the topic; otherwise the question is a slice of the reply with only whitespace cut off on either side, and it neither starts nor ends with whitespace |
| Storage.ApplyUpdate | backend/storage.py:48 | `dict.update`: every key the update carries takes its new value, every key it lacks keeps its old one; an empty update changes nothing |
| Storage.WithAnswer | backend/storage.py:57-71 | adding an answer appends the record to `questions` and the score to its topic's list, creating the list if needed; other topics and the session's identity are untouched |
| Storage.RecordScore | backend/storage.py:86-89 | the score goes at the end of its topic's list; a new topic goes last in key order; every other topic keeps its scores |
| Storage.AllScores | backend/storage.py:130-132 | one score per question |
| Storage.Levels | backend/storage.py:153-157 | the levels have the blob's topics in the blob's order |
| Storage.Reverse | backend/storage.py:164 | the reversed list has the same length with the element order flipped |
| Storage.History | backend/storage.py:166-183 | (corrected entry) one history entry per session |
| Storage.GroupingSnoc | backend/storage.py:107-111 | grouping one more question appends its score to its topic's list, creating the list when new |
| Storage.GroupByTopic | backend/storage.py:106-111 | the loop's grouping equals the reference grouping: each topic asked, with its scores in order |
| Storage.SessionAverages | backend/storage.py:114-117 | the per-topic averages of the loop equal the reference averages |
| Storage.ComputeLevels | backend/storage.py:153-157 | the level loop builds exactly the reference levels, keys in the blob's order |
| Storage.BuildHistory | backend/storage.py:166-183 | (corrected entry) the history loop builds exactly the reference history, numbered from 1 |
| Storage.ImprovementOf | backend/storage.py:195-209 | the improvement loop builds exactly the reference improvement |
| Storage.ScoresForNonEmpty | backend/storage.py:109-111 | a topic has a non-empty score list exactly when some question was asked on it, so no average divides by zero |
| Storage.ScoresForBounds | backend/storage.py:111 | a topic's scores lie in [0, 10] when all the session's scores do |
| Storage.TopicAveragesMeaning | backend/storage.py:100-117 | a session's averages cover exactly the topics asked; each is the mean of that topic's scores divided by 10, and lies in [0, 1] for scores in [0, 10] |
| Storage.RecentLevelMeaning | backend/storage.py:155-157 | a level is the mean of the last min(3, N) scores divided by 10, 0 with no scores, and lies in [0, 1] for scores in [0, 10] |
| Storage.RecentWindowExample | backend/storage.py:156 | after scores 3, 4, 5, 6 only the last three count: the level is 0.5 |
| Storage.RawAverageMeaning | backend/storage.py:128-140 | a session's average score is the plain mean of its scores, 0 with no questions, within [0, 10] for scores in [0, 10] |
| Storage.ReportsCons | backend/storage.py:121-126 | an id at the front of the list puts its session's report first |
| Storage.NewSessionReportedFirst | backend/storage.py:18-144 | a freshly created session is reported first, with no questions, average 0 and no end time |
| Storage.ReportsFromStored | backend/storage.py:121-142 | every report is that of a stored session named in the user's list; missing sessions are skipped |
| Storage.HistoryOrder | backend/storage.py:160-183 | (corrected entry) the history runs oldest session first, numbered from 1, each entry holding that session's topic averages |
| Storage.ImprovementMeaning | backend/storage.py:190-209 | with fewer than two sessions there is no improvement; otherwise, for each topic asked in both the oldest and the newest session, it is the newest average minus the oldest |
| Storage.SessionTopicBreaksHistory | backend/storage.py:168-176 | as written, a question whose topic is "session" makes the history construction fail |
| Storage.TopicAveragesSingle | backend/storage.py:114-117 | a one-question session's only average is its score divided by 10 |
| Storage.SessionTopicKeptInHistory | backend/storage.py:168-183 | with the entry number kept apart from the topics, a "session" topic gets its average like any other |
| Storage.SessionStorage.constructor | backend/storage.py:13-16 | the store starts empty |
| Storage.SessionStorage.CreateSession | backend/storage.py:18-37 | a new empty, unended session is stored under the generated id, and that id is pushed at the front of the user's list; knowledge is untouched |
| Storage.SessionStorage.UpdateSession | backend/storage.py:44-49 | a stored session gets the update applied; an unknown id changes nothing |
| Storage.SessionStorage.AddQuestion | backend/storage.py:51-76 | for a stored session, the record is appended to it and the score to the knowledge blob of the session's user; an unknown id changes nothing |
| Storage.SessionStorage.UpdateKnowledgeMap | backend/storage.py:78-91 | exactly the user's blob changes, gaining the score at the end of the topic's list |
| Storage.SessionStorage.EndSession | backend/storage.py:93-98 | only `ended_at` of a stored session changes; an unknown id changes nothing |
| Storage.SessionStorage.CalculateSessionScores | backend/storage.py:100-117 | the session's per-topic averages; `{}` for an unknown id |
| Storage.SessionStorage.GetUserSessions | backend/storage.py:119-144 | one report per stored session in the user's list, newest first |
| Storage.SessionStorage.GetKnowledgeMap | backend/storage.py:146-188 | (corrected entry) the levels of the user's blob, and the history of the user's stored sessions, oldest first |
| Storage.SessionStorage.CalculateImprovement | backend/storage.py:190-209 | (corrected entry) the improvement computed over the user's history |
| QuestionBank.AllTopicsAreBankKeys | backend/question_bank.py:104-106 | the topic list is exactly the bank's keys, in table order |
| QuestionBank.TiersComplete | backend/question_bank.py:3-89 | every topic has exactly the easy, medium and hard lists, each of three non-empty questions |
| QuestionBank.TiersOf | backend/question_bank.py:3-89 | a bank topic has a medium list, and every list has three non-empty questions |
| QuestionBank.ResolvedTopic | backend/question_bank.py:95-96 | an unknown topic is looked up as "behavioral"; the topic looked up is always in the bank |
| QuestionBank.ResolvedDifficulty | backend/question_bank.py:98-99 | the difficulty looked up is always one the topic has |
| QuestionBank.Candidates | backend/question_bank.py:91-101 | the lookup always yields three non-empty questions |
| QuestionBank.GetQuestion | backend/question_bank.py:91-102 | the drawn question is one of the candidates and is not empty |
| QuestionBank.FallbackRules | backend/question_bank.py:95-101 | an unknown topic draws from "behavioral"; a known difficulty draws from its own list; an unknown one draws from "medium" |
| QuestionBank.EveryCandidateDrawable | backend/question_bank.py:102 | every candidate can be drawn |
| Turn.DifficultyFor | backend/bot.py:173-179 | easy below 0.4, medium from 0.4 below 0.7, hard from 0.7; each boundary belongs to the higher tier |
| Turn.DifficultyMonotone | backend/pipecat_bot.py:181-187 | a higher level never gets an easier question |
| Turn.DifficultyOf | backend/pipecat_bot.py:181-187 | a topic without a level gets a medium question; otherwise the tier of its level |
| Turn.FeedbackFor | backend/pipecat_bot.py:199-204 | strong from 8, room for improvement from 6 below 8, strengthening below 6 |
| Turn.PreviousTopics | backend/pipecat_bot.py:168 | one topic per stored question, in order |
| Turn.NextTopicMeaning | backend/pipecat_bot.py:170-178 | with levels, the next topic has one; without, it is the bank topic at position `asked % 5`; with two or more levels it is never the topic just answered |
| Turn.NextTopicAfterRecord | backend/bot.py:142-166 | once an answer is stored, the user has a level, so the next topic comes from the selection policy and is a scored topic |
| Turn.PlanForMeaning | backend/bot.py:155-186 | the planned topic obeys the selection rules above; its difficulty is its level's tier; the question is the model's question on it at that difficulty |
| Turn.PlanNext | backend/pipecat_bot.py:162-194 | the topic, difficulty and question read from the store equal the plan for the user's stored levels and the session's questions |
| Bot.InterviewBot.constructor | backend/bot.py:98-106 | the bot belongs to the session's user and starts with no topic, no question and a count of 0 |
| Bot.InterviewBot.GetFirstQuestion | backend/bot.py:108-118 | the first question is an easy "leadership" question from the bank; the count is 1; the greeting ends with the question |
| Bot.InterviewBot.ProcessAnswer | backend/bot.py:120-199 | with no question yet, asks the first one and leaves the store alone; otherwise stores the evaluated answer under the current topic, counts it once, plans the next question from the updated store, and replies with the score's feedback and that question |
| Bot.InterviewBot.RecordAnswer | backend/bot.py:132-152 | the answer's evaluation is stored with the current question and topic; the count rises by one; the user's session list is untouched |
| Bot.InterviewBot.AskNext | backend/bot.py:155-188 | the bot's topic and question become the plan for the updated store |
| Voice.Percent | backend/pipecat_bot.py:239 | `int(level * 100)` truncates toward zero |
| Voice.AdviceFor | backend/pipecat_bot.py:244-249 | great from 0.7, good from 0.5 below 0.7, room for growth below 0.5 |
| Voice.Percentages | backend/pipecat_bot.py:238-240 | one line per ranked topic, with its percentage |
| Voice.BuildSummary | backend/pipecat_bot.py:233-250 | the summary loop builds exactly the reference summary: the ranked lines and the advice for the mean level |
| Voice.SummaryRankingOrdered | backend/pipecat_bot.py:237-240 | the summary has one line per levelled topic, at that topic's percentage, strongest first |
| Voice.SummaryRankingComplete | backend/pipecat_bot.py:237-240 | every levelled topic appears in the summary |
| Voice.OverallAverageBounds | backend/pipecat_bot.py:243 | the mean level is 0.5 with no levels and lies in [0, 1] when the levels do |
| Voice.InterviewBotProcessor.constructor | backend/pipecat_bot.py:38-56 | the processor belongs to the session's user; nothing asked, not waiting, no answer, not ended |
| Voice.InterviewBotProcessor.HandleUserText | backend/pipecat_bot.py:84-100 | a transcript that differs from the current answer replaces it and restarts the silence timer; the same transcript changes nothing |
| Voice.InterviewBotProcessor.UserStartedSpeaking | backend/pipecat_bot.py:70-71 | the answer being collected starts over |
| Voice.InterviewBotProcessor.AskFirstQuestion | backend/pipecat_bot.py:115-125 | an easy "leadership" question from the bank; the count is 1 and the processor waits for the answer |
| Voice.InterviewBotProcessor.ProcessAnswer | backend/pipecat_bot.py:133-221 | (corrected guard) silent and changes nothing without a question or after the end; otherwise the evaluated answer is stored in the session and the knowledge map, counted once, the next question follows the plan from the updated store; past 3 answers the session ends with the summary and the collected answer is left as it was, otherwise the speech is the feedback and the next question; the limit invariant is kept |
| Voice.InterviewBotProcessor.ProcessAnswerAsWritten | backend/pipecat_bot.py:133-137 | as written, any answer with a question is stored and counted, so one arriving after the session ended is stored again and the count goes past the limit to 5 |
| Voice.InterviewBotProcessor.Answer | backend/pipecat_bot.py:139-221 | stores the evaluated answer and plans the next question; past the limit, ends the session with the summary of the updated levels; otherwise speaks the feedback and next question and waits for a fresh answer |
| Voice.InterviewBotProcessor.AwaitAnswer | backend/pipecat_bot.py:219-221 | the answer is cleared and answer detection is re-enabled; nothing else changes |
| Voice.InterviewBotProcessor.TakeAnswer | backend/pipecat_bot.py:139-196 | the answer's evaluation is stored, counted once, and the processor moves to the planned question; its flags are untouched |
| Voice.InterviewBotProcessor.RecordAnswer | backend/pipecat_bot.py:141-160 | the answer's evaluation is stored with the current question and topic; the count rises by one |
| Voice.InterviewBotProcessor.AskNext | backend/pipecat_bot.py:162-196 | the processor's topic and question become the plan for the updated store; the store is unchanged |
| Voice.InterviewBotProcessor.EndSessionWithSummary | backend/pipecat_bot.py:223-259 | the session is marked ended and no longer waits; the summary reflects the user's levels; only the session's end time changes in the store |
| Voice.InterviewBotProcessor.SilenceElapsed | backend/pipecat_bot.py:102-110 | nothing happens unless the processor is waiting and the answer is not blank; otherwise the stripped answer is recorded for the current question; the limit invariant is kept |
| Voice.InterviewBotProcessor.UserStoppedSpeaking | backend/pipecat_bot.py:75-79 | (corrected guard) an empty collected answer, or any answer after the end, changes nothing; otherwise the answer is recorded for the current question; the limit invariant is kept |
| Voice.InterviewBotProcessor.UserStoppedSpeakingAsWritten | backend/pipecat_bot.py:75-79 | as written, a non-empty answer is recorded for the current question even after the end, and the count reaches 5 |

## Left out

- The Redis client, JSON encoding and the connection message. The store is
  three in-memory maps, and a missing key reads as empty, as the code's
  fallbacks do.
- The prompt wording and the model name. A `Prompt` keeps only the values the
  code puts into it.
- The language-model client, Weave tracing, and the console prints and logs.
- The Daily room creation and the HTTP API.
- Pipecat frames, the pipeline, `asyncio` tasks and the two-second sleep. Each
  frame or timer firing is a method call. What would be pushed to speech is a
  `Speech` value.
- The spoken sentences of the voice driver: the greeting, the "Thank you ...
  Next question" text and the closing sentences around the summary. The
  `.title()` formatting of topic names in the summary is left out too. A
  `Speech` value holds the parts that vary: question, feedback, ranking and
  advice.
- Storage.ApplyUpdate: an update carries only the six known session fields.
  Python's `session.update(updates)` would also add any other key to the stored
  record; `update_session` has no caller in the back end.
- Storage.TopicAverages, Storage.HistoryEntry and Storage.Improvement are plain
  maps, so the key order of the dicts that `calculate_session_scores`, the
  history of `get_knowledge_map` and `calculate_improvement` return is not
  kept. No decision of the core reads that order.
- `last_text_time` is only written. The timer handle is read only to cancel the
  pending silence timer, which `HandleUserText`'s `restartTimer` result stands
  for.
- Storage.SessionStorage.GetKnowledgeMap, Storage.SessionStorage.CalculateImprovement
  and Storage.BuildHistory use the corrected history entry (see Findings). The
  code's own grouping is Storage.GroupAsWritten, which fails on a "session"
  topic; the drivers' calls to `get_knowledge_map` inherit the corrected entry.
- IEEE floating point. Scores and levels are exact reals.
- The unused `last_score` parameter of `_end_session_with_summary` is accepted
  and ignored, as in the code.
- Voice.InterviewBotProcessor.constructor and Bot.InterviewBot.constructor
  require the session to exist. The code reads `session_data["user_id"]` and
  would raise otherwise.
- Storage.SessionStorage.CreateSession takes the generated id and the clock as
  parameters, so id uniqueness (`uuid4`) is not modelled.
- PyText.IsSpace covers the characters Python's `isspace` accepts among ASCII
  and the Unicode space separators. It does not cover the Unicode character
  database beyond those.
- Evaluator.GenerateNextQuestion does not model `response.content[0]` raising
  on an empty reply. That failure is part of `Failed`.
- Voice.InterviewBotProcessor.SilenceElapsed and
  Voice.InterviewBotProcessor.UserStoppedSpeaking state their guards, the
  limit invariant and the recorded answer. The rest of what happens once the
  guard passes is `ProcessAnswer`'s contract.
- Voice.InterviewBotProcessor.UserStoppedSpeaking uses the corrected guard of
  `ProcessAnswer` (see Findings). The code's own behaviour is
  Voice.InterviewBotProcessor.UserStoppedSpeakingAsWritten.
- The language model is a function of the prompt, so two calls with the same
  prompt give the same reply. The code makes a fresh call each time and may
  get different replies; the model does not capture that.
- Voice.InterviewBotProcessor.Answer takes one timestamp `now` for both the
  stored answer and the session's end time. The code reads the clock twice, so
  the two may differ slightly.

## Findings

| source | as written | input that shows it | evidently intended | confidence | as-written member | corrected member |
|---|---|---|---|---|---|---|
| backend/storage.py:168-181 | each history entry starts as `{"session": idx}`, and question topics are added as keys of the same dict | a stored question whose topic is "session": the grouping loop appends to the integer `idx` and raises AttributeError, so `get_knowledge_map` fails for that user | the entry number kept apart from the topic averages | not executed | Storage.SessionTopicBreaksHistory | Storage.SessionTopicKeptInHistory |
| backend/pipecat_bot.py:133-137 | `_process_answer` checks only `last_question`; `session_ended` is never read, and the closing path does not clear `current_answer` | the user speaks again after the closing summary: the end-of-speech frame processes the answer, so it is evaluated and stored, `questions_asked` reaches 5, and the session is closed and summarised a second time | no answer processed once the session has ended | not executed | Voice.InterviewBotProcessor.ProcessAnswerAsWritten | Voice.InterviewBotProcessor.ProcessAnswer |
