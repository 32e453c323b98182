/**
  The immutable tables the controllers run over: the badge ledger's initial
  contents, the ten learning stages and the question and item tables of the
  four mini-games. Each table's well-formedness is stated on the function
  that returns it.
 */
module Constants {
  import opened Types

  /** The ledger at the start of a session. */
  function InitialBadges(): (b: seq<Badge>)
    ensures |b| == 8
    ensures forall i :: 0 <= i < |b| ==> !b[i].earned
    ensures b[7].id == "joke_master"
  {
    [ Badge("first_step", "First Step", "You started your journey!", false),
      Badge("rule_master", "Rule Master", "You learned about rules!", false),
      Badge("ai_explorer", "AI Explorer", "You learned about AI!", false),
      Badge("sorting_star", "Sorting Star", "You sorted emotions into categories!", false),
      Badge("mood_master", "Mood Master", "You matched moods to pictures!", false),
      Badge("emotion_detective", "Emotion Detective", "You matched emotions like a pro!", false),
      Badge("quiz_boss", "Quiz Boss", "You defeated the monster!", false),
      Badge("joke_master", "Joke Master", "You built a funny bot!", false) ]
  }

  /** The ledger's badges carry distinct identifiers: no two of them even share a first letter. */
  lemma BadgeIdsDistinct()
    ensures forall i, j :: 0 <= i < j < |InitialBadges()| ==> InitialBadges()[i].id != InitialBadges()[j].id
  {
    var b := InitialBadges();
    var initials := "frasmeqj";
    assert forall k :: 0 <= k < |b| ==> b[k].id[0] == initials[k];
    forall i, j | 0 <= i < j < |b| ensures b[i].id != b[j].id {
      assert initials[i] != initials[j];
    }
  }

  /** The identifiers of the ledger's badges. */
  function BadgeIds(): set<string>
  {
    set b | b in InitialBadges() :: b.id
  }

  datatype MemoryPair = MemoryPair(id: int, sentence: string, emoji: string)

  function MemoryGamePairs(): (p: seq<MemoryPair>)
    ensures |p| == 4
    ensures forall i :: 0 <= i < |p| ==> p[i].id == i + 1
    ensures forall i, j :: 0 <= i < j < |p| ==> p[i].id != p[j].id
  {
    [ MemoryPair(1, "I won the race!", "🎉"),
      MemoryPair(2, "I lost my toy.", "😢"),
      MemoryPair(3, "That's so funny!", "😂"),
      MemoryPair(4, "I'm so tired.", "😴") ]
  }

  datatype BossQuestion = BossQuestion(question: string, options: seq<string>, correctAnswer: string)

  function BossBattleQuestions(): (q: seq<BossQuestion>)
    ensures |q| == 4
    ensures forall i :: 0 <= i < |q| ==> q[i].correctAnswer in q[i].options
  {
    [ BossQuestion("Wow, a surprise party! I had no idea!", ["Happy 😊", "Sad 😢", "Angry 😠"], "Happy 😊"),
      BossQuestion("My ice cream fell on the ground.", ["Happy 😊", "Sad 😢", "Surprised 😮"], "Sad 😢"),
      BossQuestion("I can't believe you broke my favorite toy!", ["Happy 😊", "Neutral 😐", "Angry 😠"], "Angry 😠"),
      BossQuestion("This movie is okay, I guess.", ["Happy 😊", "Sad 😢", "Neutral 😐"], "Neutral 😐") ]
  }

  datatype MoodQuestion = MoodQuestion(scene: string, options: seq<string>, correctAnswer: string)

  function MoodMatchQuestions(): (q: seq<MoodQuestion>)
    ensures |q| == 4
    ensures forall i :: 0 <= i < |q| ==> q[i].correctAnswer in q[i].options
    ensures forall i, k :: 0 <= i < |q| && 0 <= k < |q[i].options| ==> q[i].options[k] != ""
  {
    [ MoodQuestion("🍦", ["Happy", "Sad", "Angry", "Excited"], "Happy"),
      MoodQuestion("🌧️", ["Happy", "Sad", "Angry", "Bored"], "Sad"),
      MoodQuestion("😭", ["Joyful", "Tired", "Sad", "Excited"], "Sad"),
      MoodQuestion("🎁", ["Angry", "Bored", "Excited", "Sad"], "Excited") ]
  }

  datatype Category = Positive | Negative

  datatype SortItem = SortItem(id: int, content: string, category: Category)

  function EmotionSortingItems(): (s: seq<SortItem>)
    ensures |s| == 8
    ensures forall i :: 0 <= i < |s| ==> s[i].id == i + 1
    ensures forall i, j :: 0 <= i < j < |s| ==> s[i].id != s[j].id
  {
    [ SortItem(1, "😃", Positive),
      SortItem(2, "😢", Negative),
      SortItem(3, "🎉", Positive),
      SortItem(4, "⚡", Negative),
      SortItem(5, "🥳", Positive),
      SortItem(6, "💔", Negative),
      SortItem(7, "🌞", Positive),
      SortItem(8, "🌧️", Negative) ]
  }

  /** The quiz of stage 3, on what a rule answers. */
  function RuleQuiz(): (q: Quiz)
    ensures q.correctAnswer in q.options
  {
    Quiz(["I am a robot.", "My name is Chippy!", "I don't know."], "My name is Chippy!")
  }

  /** The quiz of stage 5, on what an AI-powered bot can do. */
  function AiQuiz(): (q: Quiz)
    ensures q.correctAnswer in q.options
  {
    Quiz(["Rule-based", "AI-powered"], "AI-powered")
  }

  /**
    Stage number `id` (1 to 10) of the tutorial: it carries its own number,
    and a quiz exactly when its element is a quiz.
   */
  function Stage(id: int): (s: LearningStage)
    ensures 1 <= id <= 10 ==> s.id == id
    ensures s.quiz.Some? <==> s.element == QuizElement
  {
    match id
    case 1 =>
      LearningStage(1, Riya, Some("first_step"), NoElement, None)
    case 2 =>
      LearningStage(2, Senti, None, NoElement, None)
    case 3 =>
      LearningStage(3, Chippy, Some("rule_master"), QuizElement, Some(RuleQuiz()))
    case 4 =>
      LearningStage(4, Riya, None, NoElement, None)
    case 5 =>
      LearningStage(5, Chippy, Some("ai_explorer"), QuizElement, Some(AiQuiz()))
    case 6 =>
      LearningStage(6, Senti, Some("sorting_star"), GameElement(EmotionSort), None)
    case 7 =>
      LearningStage(7, Riya, Some("mood_master"), GameElement(MoodMatch), None)
    case 8 =>
      LearningStage(8, Senti, Some("emotion_detective"), GameElement(MemoryMatch), None)
    case 9 =>
      LearningStage(9, Chippy, Some("quiz_boss"), GameElement(BossBattle), None)
    case _ =>
      LearningStage(10, Riya, None, NoElement, None)
  }

  /** The ten stages of the tutorial, in order. */
  function LearningStages(): (s: seq<LearningStage>)
    ensures |s| == 10
    ensures s[0].badge == Some("first_step") && s[0].element == NoElement
    ensures s[|s| - 1].badge == None && s[|s| - 1].element == NoElement
  {
    seq(10, i requires 0 <= i < 10 => Stage(i + 1))
  }

  /**
    A stage is well formed at position `i` when its id is `i + 1`, it carries
    a quiz exactly when its element is a quiz, the quiz's correct answer is
    one of its options, and its badge (if any) is a badge of the ledger.
   */
  predicate StageWellFormed(st: LearningStage, i: int)
  {
    && st.id == i + 1
    && (st.quiz.Some? <==> st.element == QuizElement)
    && (st.quiz.Some? ==> st.quiz.value.correctAnswer in st.quiz.value.options)
    && (st.badge.Some? ==> st.badge.value in BadgeIds())
  }

  /** The ledger's `k`-th badge is one of its identifiers. */
  lemma InLedger(k: int)
    requires 0 <= k < |InitialBadges()|
    ensures InitialBadges()[k].id in BadgeIds()
  {
    assert InitialBadges()[k] in InitialBadges();
  }

  lemma StageIsWellFormed(id: int)
    requires 1 <= id <= 10
    ensures StageWellFormed(Stage(id), id - 1)
  {
    if id == 1 { InLedger(0); }
    else if id == 3 { InLedger(1); }
    else if id == 5 { InLedger(2); }
    else if id == 6 { InLedger(3); }
    else if id == 7 { InLedger(4); }
    else if id == 8 { InLedger(5); }
    else if id == 9 { InLedger(6); }
  }

  lemma StagesWellFormed()
    ensures forall i :: 0 <= i < |LearningStages()| ==> StageWellFormed(LearningStages()[i], i)
  {
    forall i | 0 <= i < |LearningStages()| ensures StageWellFormed(LearningStages()[i], i) {
      StageIsWellFormed(i + 1);
    }
  }

  /** The `joke_master` badge the chat playground awards is in the ledger too. */
  lemma JokeMasterInLedger()
    ensures "joke_master" in BadgeIds()
  {
    assert InitialBadges()[7] in InitialBadges();
  }
}
