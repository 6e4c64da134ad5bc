/** The static question bank: five topics, each with easy, medium and hard lists of
    three questions, and the lookup with its fallbacks for an unknown topic or an
    unknown difficulty. */
module QuestionBank {

  /** One topic of the bank and its questions per difficulty name. */
  datatype TopicQuestions = TopicQuestions(topic: string, tiers: map<string, seq<string>>)

  /** The table, in the order of the keys of `QUESTION_BANK`. */
  const Bank: seq<TopicQuestions> := [
    TopicQuestions("leadership", map[
      "easy" := [
        "Tell me about a time you helped a team member who was struggling.",
        "Describe a situation where you had to motivate your team.",
        "Have you ever had to give constructive feedback? How did you approach it?"],
      "medium" := [
        "Tell me about a time you led a team through a difficult project.",
        "Describe a situation where you had to influence people without direct authority.",
        "Tell me about a time when your team disagreed with your decision. How did you handle it?"],
      "hard" := [
        "Describe a time you had to make an unpopular decision as a leader.",
        "Tell me about your biggest leadership failure and what you learned.",
        "How do you balance being a strong leader with being collaborative?"]]),
    TopicQuestions("algorithms", map[
      "easy" := [
        "Explain how you would reverse a string.",
        "How would you find if a string is a palindrome?",
        "Describe how a hash table works."],
      "medium" := [
        "How would you detect a cycle in a linked list?",
        "Explain how you'd implement a LRU cache.",
        "Walk me through finding the kth largest element in an array."],
      "hard" := [
        "Design an algorithm to find the longest palindromic substring.",
        "How would you implement a trie and what are its use cases?",
        "Explain dynamic programming and give an example of when you'd use it."]]),
    TopicQuestions("system_design", map[
      "easy" := [
        "How would you design a URL shortener?",
        "Explain the difference between SQL and NoSQL databases.",
        "What is load balancing and why is it important?"],
      "medium" := [
        "Design a rate limiter for an API.",
        "How would you design a notification system?",
        "Design a file storage system like Dropbox."],
      "hard" := [
        "Design Twitter's feed system.",
        "How would you design a distributed cache?",
        "Design a real-time analytics system for a large e-commerce site."]]),
    TopicQuestions("conflict_resolution", map[
      "easy" := [
        "Tell me about a time you disagreed with a coworker.",
        "How do you handle criticism?",
        "Describe a situation where you had to compromise."],
      "medium" := [
        "Tell me about a time you had to work with a difficult team member.",
        "Describe a situation where you had to navigate office politics.",
        "How do you handle it when your idea is rejected?"],
      "hard" := [
        "Tell me about the most difficult conflict you've resolved.",
        "Describe a time when you had to choose between two team members' ideas.",
        "How do you handle a situation where upper management makes a decision you disagree with?"]]),
    TopicQuestions("behavioral", map[
      "easy" := [
        "Why are you interested in this role?",
        "What are your biggest strengths?",
        "Where do you see yourself in 5 years?"],
      "medium" := [
        "Tell me about a time you failed and what you learned.",
        "Describe your ideal work environment.",
        "How do you prioritize when you have multiple deadlines?"],
      "hard" := [
        "What's the biggest risk you've ever taken?",
        "Tell me about a time you had to adapt to a major change.",
        "Describe a situation where you had to learn something completely new quickly."]])
  ]

  /** `get_all_topics()`: the bank's keys, in table order. It is spelled out so that
      code which only needs the topic names does not reason about the whole table. */
  function AllTopics(): seq<string>
  {
    ["leadership", "algorithms", "system_design", "conflict_resolution", "behavioral"]
  }

  /** The topic names are exactly the bank's keys, in table order. */
  lemma AllTopicsAreBankKeys()
    ensures |AllTopics()| == |Bank|
    ensures forall i :: 0 <= i < |Bank| ==> AllTopics()[i] == Bank[i].topic
  {
  }

  /** `topic in QUESTION_BANK`. */
  predicate InBank(topic: string)
  {
    exists i :: 0 <= i < |Bank| && Bank[i].topic == topic
  }

  /** Every topic of the bank has an easy, a medium and a hard list of three
      non-empty questions, and no other difficulty. */
  lemma TiersComplete(i: nat)
    requires i < |Bank|
    ensures Bank[i].tiers.Keys == {"easy", "medium", "hard"}
    ensures |Bank[i].tiers["easy"]| == 3 && |Bank[i].tiers["medium"]| == 3 && |Bank[i].tiers["hard"]| == 3
    ensures forall d, j :: d in Bank[i].tiers && 0 <= j < |Bank[i].tiers[d]| ==> |Bank[i].tiers[d][j]| > 0
  {
  }

  /** `QUESTION_BANK[topic]` for a topic of the bank. */
  function TiersOf(topic: string): (tiers: map<string, seq<string>>)
    requires InBank(topic)
    ensures "medium" in tiers && |tiers["medium"]| == 3
    ensures forall d :: d in tiers ==> |tiers[d]| == 3
    ensures forall d, j :: d in tiers && 0 <= j < |tiers[d]| ==> |tiers[d][j]| > 0
  {
    var i :| 0 <= i < |Bank| && Bank[i].topic == topic;
    TiersComplete(i);
    Bank[i].tiers
  }

  /** The topic actually looked up: an unknown topic falls back to "behavioral". */
  function ResolvedTopic(topic: string): (t: string)
    ensures InBank(t)
    ensures t == (if InBank(topic) then topic else "behavioral")
  {
    assert Bank[4].topic == "behavioral";
    if InBank(topic) then topic else "behavioral"
  }

  /** The difficulty actually looked up: one the topic lacks falls back to "medium". */
  function ResolvedDifficulty(topic: string, difficulty: string): (d: string)
    requires InBank(topic)
    ensures d in TiersOf(topic)
  {
    if difficulty in TiersOf(topic) then difficulty else "medium"
  }

  /** The list `random.choice` draws from in `get_question(topic, difficulty)`. */
  function Candidates(topic: string, difficulty: string): (qs: seq<string>)
    ensures |qs| == 3
    ensures forall j :: 0 <= j < |qs| ==> |qs[j]| > 0
  {
    var t := ResolvedTopic(topic);
    TiersOf(t)[ResolvedDifficulty(t, difficulty)]
  }

  /** `get_question(topic, difficulty)`; `choice` stands for the random draw, which
      may pick any of the candidates. The lookup never fails. */
  function GetQuestion(topic: string, difficulty: string, choice: nat): (q: string)
    ensures q in Candidates(topic, difficulty)
    ensures |q| > 0
  {
    var qs := Candidates(topic, difficulty);
    qs[choice % |qs|]
  }

  /** An unknown topic asks a "behavioral" question; an unknown difficulty asks a
      "medium" one; known ones are used as given. */
  lemma FallbackRules(topic: string, difficulty: string)
    ensures !InBank(topic) ==> Candidates(topic, difficulty) == Candidates("behavioral", difficulty)
    ensures InBank(topic) && difficulty in TiersOf(topic) ==> Candidates(topic, difficulty) == TiersOf(topic)[difficulty]
    ensures InBank(topic) && difficulty !in TiersOf(topic) ==> Candidates(topic, difficulty) == TiersOf(topic)["medium"]
  {
    assert Bank[4].topic == "behavioral";
  }

  /** Every candidate can be drawn: draw `k` picks the `k`-th one. */
  lemma EveryCandidateDrawable(topic: string, difficulty: string, k: nat)
    requires k < 3
    ensures GetQuestion(topic, difficulty, k) == Candidates(topic, difficulty)[k]
  {
  }
}
