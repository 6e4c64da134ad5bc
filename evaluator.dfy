/** The evaluator: the next-topic policy, the weak-topic pick that goes into the
    question prompt, and the parsing of the language model's reply into a score and
    weak points with their fixed fallback values.

    The language model is an uninterpreted function from a prompt to a reply; only
    the fields of the prompt that `evaluate_answer` and `generate_next_question` fill in are kept, not its wording. */
module Evaluator {
  import opened Common
  import opened PyText
  import opened Ranking

  /** What a prompt asks, reduced to the values the Python code puts into it. */
  datatype Prompt =
    | EvaluationPrompt(question: string, topic: string, answer: string)
    | QuestionPrompt(topic: string, difficulty: string, weakTopics: seq<string>)

  /** The reply of the model call: the text of its first content block, or an
      exception raised by the call. */
  datatype Reply = Answered(text: string) | Failed

  type Model = Prompt -> Reply

  // ---------------------------------------------------------------- topic policy

  /** The cycle used when there are no levels at all. */
  const DefaultTopics: seq<string> := ["leadership", "algorithms", "system_design", "conflict_resolution"]

  /** `previous_topics[-1]`, if there is one. */
  function LastTopic(previous: seq<string>): Option<string>
  {
    if previous == [] then None else Some(previous[|previous| - 1])
  }

  /** `select_next_topic(knowledge_map, previous_topics)`: with no levels, cycle
      through the defaults; otherwise scan the topics in ascending level order and
      take the first one that is not the topic asked last, or the lowest topic if
      there is none. */
  function SelectNextTopic(levels: Dict<real>, previous: seq<string>): (t: string)
    ensures |levels.keys| == 0 ==> t == DefaultTopics[|previous| % 4]
    ensures |levels.keys| > 0 ==> t in levels.values
  {
    if |levels.keys| == 0 then DefaultTopics[|previous| % |DefaultTopics|]
    else
      var items := Items(levels);
      var sorted := Sort(items, false);
      assert sorted[0] in multiset(items);
      match FirstEligible(sorted, LastTopic(previous))
      case Some(x) =>
        assert x in multiset(items);
        x.0
      case None => if |sorted| > 0 then sorted[0].0 else "behavioral"
  }

  /** Two or more topics with a level: the topic asked last is never picked again. */
  lemma {:induction false} SelectAvoidsLast(levels: Dict<real>, previous: seq<string>)
    requires previous != [] && |levels.keys| >= 2
    ensures SelectNextTopic(levels, previous) != previous[|previous| - 1]
  {
    var items := Items(levels);
    var last := LastTopic(previous);
    var i := if levels.keys[0] != last.value then 0 else 1;
    assert Eligible(items[i], last);
    NoneEligibleOfSort(items, last, false);
  }

  /** The pick is the lowest-level topic other than the one asked last, ties going to
      the topic inserted first; with no previous topic it is simply the lowest. */
  lemma SelectIsFirstLowest(levels: Dict<real>, previous: seq<string>)
    requires exists i :: 0 <= i < |levels.keys| && Eligible(Items(levels)[i], LastTopic(previous))
    ensures exists k :: IsFirstLowest(Items(levels), k, LastTopic(previous), false)
                     && SelectNextTopic(levels, previous) == levels.keys[k]
  {
    var items := Items(levels);
    NoneEligibleOfSort(items, LastTopic(previous), false);
    FirstEligibleOfSort(items, LastTopic(previous), false);
  }

  /** When the topic asked last is the only topic, it is picked anyway. */
  lemma {:induction false} SelectOnlyTopic(levels: Dict<real>, previous: seq<string>)
    requires |levels.keys| == 1 && previous != [] && levels.keys[0] == previous[|previous| - 1]
    ensures SelectNextTopic(levels, previous) == levels.keys[0]
  {
    var items := Items(levels);
    assert items == [(levels.keys[0], levels.values[levels.keys[0]])];
    assert Sort(items, false) == items;
  }

  /** `sorted(knowledge_map.items(), key=lambda x: x[1])[:2]`, topic names only. */
  function WeakTopics(levels: Dict<real>): seq<string>
  {
    var sorted := Sort(Items(levels), false);
    var n := if |sorted| < 2 then |sorted| else 2;
    seq(n, i requires 0 <= i < n => sorted[i].0)
  }

  /** An element left out of the first `n` of the sorted list has a level no lower
      than any of those `n`. */
  lemma SortedPrefixLowest(items: seq<Item>, n: nat, i: nat, j: nat)
    requires i < n <= |items| && j < |items|
    requires forall p :: 0 <= p < n ==> Sort(items, false)[p].0 != items[j].0
    ensures Sort(items, false)[i].1 <= items[j].1
  {
    var sorted := Sort(items, false);
    SortSorted(items, false);
    assert items[j] in multiset(sorted);
    var p :| 0 <= p < |sorted| && sorted[p] == items[j];
    assert Key(sorted[i], false) <= Key(sorted[p], false);
  }

  /** Each entry of the sorted item list is a topic with its level. */
  lemma SortedItemsOfLevels(levels: Dict<real>, i: nat)
    requires i < |Sort(Items(levels), false)|
    ensures Sort(Items(levels), false)[i].0 in levels.values
    ensures Sort(Items(levels), false)[i].1 == levels.values[Sort(Items(levels), false)[i].0]
  {
    var items := Items(levels);
    assert Sort(items, false)[i] in multiset(items);
    var k :| 0 <= k < |items| && items[k] == Sort(items, false)[i];
  }

  /** The weak topics are the first (at most two) topics of the ascending sort. */
  lemma WeakTopicsPrefix(levels: Dict<real>)
    ensures |WeakTopics(levels)| == if |levels.keys| < 2 then |levels.keys| else 2
    ensures forall p :: 0 <= p < |WeakTopics(levels)| ==>
      p < |Sort(Items(levels), false)| && WeakTopics(levels)[p] == Sort(Items(levels), false)[p].0
  {
  }

  /** At most two weak topics, all of them topics with a level, and none of them has
      a higher level than a topic left out. */
  lemma WeakTopicsAreLowest(levels: Dict<real>)
    ensures |WeakTopics(levels)| == if |levels.keys| < 2 then |levels.keys| else 2
    ensures forall i :: 0 <= i < |WeakTopics(levels)| ==> WeakTopics(levels)[i] in levels.values
    ensures forall i, u :: 0 <= i < |WeakTopics(levels)| && u in levels.values && u !in WeakTopics(levels) ==>
      levels.values[WeakTopics(levels)[i]] <= levels.values[u]
  {
    var items := Items(levels);
    var sorted := Sort(items, false);
    var w := WeakTopics(levels);
    WeakTopicsPrefix(levels);
    forall i | 0 <= i < |w| ensures w[i] in levels.values {
      SortedItemsOfLevels(levels, i);
    }
    forall i, u | 0 <= i < |w| && u in levels.values && u !in w
      ensures levels.values[w[i]] <= levels.values[u]
    {
      SortedItemsOfLevels(levels, i);
      var j :| 0 <= j < |levels.keys| && levels.keys[j] == u;
      SortedPrefixLowest(items, |w|, i, j);
    }
  }

  // ---------------------------------------------------------------- reply parsing

  const ScoreMarker := "SCORE:"
  const WeakMarker := "WEAK_POINTS:"
  const DefaultScore: real := 5.0
  const ApiErrorPoint := "Unable to evaluate - API error"

  datatype Evaluation = Evaluation(score: real, weakPoints: seq<string>)

  /** What `evaluate_answer` returns from its exception handler. */
  const ErrorEvaluation := Evaluation(DefaultScore, [ApiErrorPoint])

  /** A line that starts with the score marker once stripped. */
  predicate IsScoreLine(line: string)
  {
    StartsWith(Strip(line), ScoreMarker)
  }

  /** `k` is the index of the first score line of `lines`. */
  ghost predicate IsFirstScoreLine(lines: seq<string>, k: int)
  {
    && 0 <= k < |lines| && IsScoreLine(lines[k])
    && forall j :: 0 <= j < k ==> !IsScoreLine(lines[j])
  }

  /** `[line for line in lines if line.strip().startswith("SCORE:")]`. */
  function ScoreLines(lines: seq<string>): (r: seq<string>)
    ensures forall i :: 0 <= i < |r| ==> IsScoreLine(r[i])
  {
    if lines == [] then []
    else (if IsScoreLine(lines[0]) then [lines[0]] else []) + ScoreLines(lines[1..])
  }

  /** The comprehension is empty exactly when no line is a score line. */
  lemma {:induction false} ScoreLinesEmpty(lines: seq<string>)
    ensures ScoreLines(lines) == [] <==> forall i :: 0 <= i < |lines| ==> !IsScoreLine(lines[i])
  {
    if lines != [] {
      ScoreLinesEmpty(lines[1..]);
      assert forall i :: 1 <= i < |lines| ==> lines[i] == lines[1..][i - 1];
    }
  }

  /** The `[0]` of the comprehension is the first score line. */
  lemma {:induction false} ScoreLinesFirst(lines: seq<string>)
    requires ScoreLines(lines) != []
    ensures exists k :: IsFirstScoreLine(lines, k) && ScoreLines(lines)[0] == lines[k]
  {
    if !IsScoreLine(lines[0]) {
      var rest := lines[1..];
      ScoreLinesFirst(rest);
      var k :| IsFirstScoreLine(rest, k) && ScoreLines(rest)[0] == rest[k];
      assert IsFirstScoreLine(lines, k + 1);
    } else {
      assert IsFirstScoreLine(lines, 0);
    }
  }

  /** A line of the weak-points list: its stripped text starts with a dash. */
  predicate IsBullet(line: string)
  {
    StartsWith(Strip(line), "-")
  }

  /** `line.strip()[1:].strip()`. */
  function BulletText(line: string): string
    requires IsBullet(line)
  {
    Strip(Strip(line)[1..])
  }

  /** The weak-points loop, from `lines` on with the flag `inSection`: a line holding
      the marker turns the flag on and is skipped; a bullet line seen with the flag on
      contributes its text. */
  function WeakPointsFrom(lines: seq<string>, inSection: bool): seq<string>
  {
    if lines == [] then []
    else if Contains(lines[0], WeakMarker) then WeakPointsFrom(lines[1..], true)
    else (if inSection && IsBullet(lines[0]) then [BulletText(lines[0])] else []) + WeakPointsFrom(lines[1..], inSection)
  }

  /** Reference definition: the texts of the bullet lines of `lines` that do not hold
      the marker, in order. */
  function Bullets(lines: seq<string>): seq<string>
  {
    if lines == [] then []
    else (if !Contains(lines[0], WeakMarker) && IsBullet(lines[0]) then [BulletText(lines[0])] else []) + Bullets(lines[1..])
  }

  lemma {:induction false} WeakPointsInSection(lines: seq<string>)
    ensures WeakPointsFrom(lines, true) == Bullets(lines)
  {
    if lines != [] {
      WeakPointsInSection(lines[1..]);
    }
  }

  /** The weak points are the bullet lines after the first line that holds the marker. */
  lemma {:induction false} WeakPointsAfterMarker(lines: seq<string>, k: nat)
    requires k < |lines| && Contains(lines[k], WeakMarker)
    requires forall j :: 0 <= j < k ==> !Contains(lines[j], WeakMarker)
    ensures WeakPointsFrom(lines, false) == Bullets(lines[k + 1..])
  {
    if k == 0 {
      WeakPointsInSection(lines[1..]);
    } else {
      assert forall j :: 0 <= j < k - 1 ==> lines[1..][j] == lines[j + 1];
      WeakPointsAfterMarker(lines[1..], k - 1);
      assert lines[1..][k..] == lines[k + 1..];
    }
  }

  /** Without a marker line there are no weak points. */
  lemma {:induction false} NoMarkerNoWeakPoints(lines: seq<string>)
    requires forall j :: 0 <= j < |lines| ==> !Contains(lines[j], WeakMarker)
    ensures WeakPointsFrom(lines, false) == []
  {
    if lines != [] {
      assert forall j :: 0 <= j < |lines| - 1 ==> lines[1..][j] == lines[j + 1];
      NoMarkerNoWeakPoints(lines[1..]);
    }
  }

  /** The score on a score line: `float(line.replace("SCORE:", "").strip())`, or the
      default score when `float()` rejects that text. */
  function ScoreOn(line: string, parseFloat: string -> Option<real>): real
  {
    match parseFloat(Strip(Remove(line, ScoreMarker)))
    case Some(v) => v
    case None => DefaultScore
  }

  /** A line that is the marker followed by text without another marker is scored by
      that text, stripped. */
  lemma ScoreOnMarkedLine(rest: string, parseFloat: string -> Option<real>)
    requires !Contains(rest, ScoreMarker)
    ensures ScoreOn(ScoreMarker + rest, parseFloat) ==
      match parseFloat(Strip(rest)) case Some(v) => v case None => DefaultScore
  {
    RemoveLeading(ScoreMarker, rest);
  }

  /** The score read from `content`, or `None` where `[...][0]` raises IndexError:
      the marker occurs in the text but never at the start of a stripped line. */
  function ReadScore(content: string, parseFloat: string -> Option<real>): Option<real>
  {
    if !Contains(content, ScoreMarker) then Some(DefaultScore)
    else
      var candidates := ScoreLines(Split(content, '\n'));
      if candidates == [] then None
      else Some(ScoreOn(candidates[0], parseFloat))
  }

  /** The value `evaluate_answer` returns for a given reply of the model. */
  function Evaluate(reply: Reply, parseFloat: string -> Option<real>): Evaluation
  {
    match reply
    case Failed => ErrorEvaluation
    case Answered(content) =>
      match ReadScore(content, parseFloat)
      case None => ErrorEvaluation
      case Some(score) =>
        Evaluation(score, if Contains(content, WeakMarker) then WeakPointsFrom(Split(content, '\n'), false) else [])
  }

  /** The fallbacks of `evaluate_answer`: a failed call, or a marker that no line
      starts with, gives the error evaluation; without a marker the score is the
      default; otherwise the score is read from the first line that starts with the
      marker. */
  lemma ScoreFallbacks(content: string, parseFloat: string -> Option<real>)
    ensures Evaluate(Failed, parseFloat) == ErrorEvaluation
    ensures !Contains(content, ScoreMarker) ==> Evaluate(Answered(content), parseFloat).score == DefaultScore
    ensures Contains(content, ScoreMarker) && (forall i :: 0 <= i < |Split(content, '\n')| ==> !IsScoreLine(Split(content, '\n')[i])) ==>
      Evaluate(Answered(content), parseFloat) == ErrorEvaluation
    ensures forall k :: Contains(content, ScoreMarker) && IsFirstScoreLine(Split(content, '\n'), k) ==>
      Evaluate(Answered(content), parseFloat).score == ScoreOn(Split(content, '\n')[k], parseFloat)
  {
    var lines := Split(content, '\n');
    ScoreLinesEmpty(lines);
    if ScoreLines(lines) != [] {
      ScoreLinesFirst(lines);
    }
  }

  /** `evaluate_answer(question, answer, topic)` with the model call abstracted. */
  method EvaluateAnswer(question: string, answer: string, topic: string, llm: Model, parseFloat: string -> Option<real>)
    returns (score: real, weakPoints: seq<string>)
    ensures Evaluation(score, weakPoints) == Evaluate(llm(EvaluationPrompt(question, topic, answer)), parseFloat)
  {
    var reply := llm(EvaluationPrompt(question, topic, answer));
    if reply.Failed? {
      return DefaultScore, [ApiErrorPoint];
    }
    var read := ParseScore(reply.text, parseFloat);
    var lines := Split(reply.text, '\n');
    ScoreLinesEmpty(lines);
    if ScoreLines(lines) != [] {
      ScoreLinesFirst(lines);
    }
    if read.None? {
      // the IndexError is caught by the handler around the whole evaluation
      return DefaultScore, [ApiErrorPoint];
    }
    score := read.value;
    weakPoints := [];
    if Contains(reply.text, WeakMarker) {
      weakPoints := CollectWeakPoints(Split(reply.text, '\n'));
    }
  }

  /** The score part of `evaluate_answer`: without a marker the default score; with
      one, the score on the first line that starts with it, or `None` (the IndexError)
      when no line does. */
  method ParseScore(content: string, parseFloat: string -> Option<real>) returns (score: Option<real>)
    ensures !Contains(content, ScoreMarker) ==> score == Some(DefaultScore)
    ensures Contains(content, ScoreMarker) && (forall i :: 0 <= i < |Split(content, '\n')| ==> !IsScoreLine(Split(content, '\n')[i])) ==>
      score == None
    ensures forall k :: Contains(content, ScoreMarker) && IsFirstScoreLine(Split(content, '\n'), k) ==>
      score == Some(ScoreOn(Split(content, '\n')[k], parseFloat))
  {
    score := Some(DefaultScore);
    if Contains(content, ScoreMarker) {
      var candidates := ScoreLines(Split(content, '\n'));
      ScoreLinesEmpty(Split(content, '\n'));
      if candidates == [] {
        return None;
      }
      ScoreLinesFirst(Split(content, '\n'));
      var parsed := parseFloat(Strip(Remove(candidates[0], ScoreMarker)));
      if parsed.Some? {
        score := parsed;
      }
    }
  }

  /** The weak-points loop of `evaluate_answer` over the lines of the reply. */
  method CollectWeakPoints(lines: seq<string>) returns (weakPoints: seq<string>)
    ensures weakPoints == WeakPointsFrom(lines, false)
  {
    weakPoints := [];
    var inWeakPoints := false;
    var i := 0;
    while i < |lines|
      invariant 0 <= i <= |lines|
      invariant weakPoints + WeakPointsFrom(lines[i..], inWeakPoints) == WeakPointsFrom(lines, false)
    {
      var line := lines[i];
      assert lines[i..][1..] == lines[i + 1..];
      if Contains(line, WeakMarker) {
        inWeakPoints := true;
        i := i + 1;
        continue;
      }
      if inWeakPoints && IsBullet(line) {
        weakPoints := weakPoints + [BulletText(line)];
      }
      i := i + 1;
    }
  }

  // ---------------------------------------------------------------- question generation

  /** The question used when the model call fails. */
  function FallbackQuestion(topic: string): string
  {
    "Tell me about a time you dealt with a challenging " + topic + " situation."
  }

  /** `generate_next_question(topic, difficulty, knowledge_map)`: the model is asked for
      a question on `topic` at `difficulty` that targets the two weakest topics; its
      reply is stripped, and a failed call gives the fallback question. */
  function GenerateNextQuestion(topic: string, difficulty: string, levels: Dict<real>, llm: Model): (q: string)
    ensures llm(QuestionPrompt(topic, difficulty, WeakTopics(levels))).Failed? ==> q == FallbackQuestion(topic)
    ensures llm(QuestionPrompt(topic, difficulty, WeakTopics(levels))).Answered? ==>
      TrimmedOf(q, llm(QuestionPrompt(topic, difficulty, WeakTopics(levels))).text)
  {
    match llm(QuestionPrompt(topic, difficulty, WeakTopics(levels)))
    case Answered(text) => StripTrims(text); Strip(text)
    case Failed => FallbackQuestion(topic)
  }
}
