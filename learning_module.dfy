/**
  The lesson controller: walks a stage index through the stage table,
  records the learner's quiz answer, collects the mini-games' completion
  signals and decides whether "Next" is enabled.
 */
module LearningModule {
  import opened Types
  import Constants

  /**
    `selectedAnswer === currentStage.quiz?.correctAnswer`: with no answer or
    no quiz on the stage the comparison is false.
   */
  function IsCorrect(selected: Option<string>, quiz: Option<Quiz>): (b: bool)
    ensures quiz.None? ==> !b
    ensures selected.None? ==> !b
    ensures quiz.Some? ==> (b <==> selected == Some(quiz.value.correctAnswer))
  {
    match quiz
    case None => false
    case Some(q) => selected.Some? && selected.value == q.correctAnswer
  }

  /** The completion flag that belongs to mini-game `g`. */
  function GameFlag(g: MiniGame, memory: bool, boss: bool, mood: bool, sort: bool): bool
  {
    match g
    case MemoryMatch => memory
    case BossBattle => boss
    case MoodMatch => mood
    case EmotionSort => sort
  }

  /**
    The "Next" button's `disabled` expression, one disjunct per kind of
    interactive element. Per element: nothing never disables, a quiz disables
    until the correct answer is selected, a mini-game until it has signalled
    completion.
   */
  function NextDisabled(e: InteractiveElement, correct: bool,
                        memory: bool, boss: bool, mood: bool, sort: bool): (d: bool)
    ensures e == NoElement ==> !d
    ensures e == QuizElement ==> (d <==> !correct)
    ensures e.GameElement? ==> (d <==> !GameFlag(e.game, memory, boss, mood, sort))
  {
    || (e == QuizElement && !correct)
    || (e == GameElement(MemoryMatch) && !memory)
    || (e == GameElement(BossBattle) && !boss)
    || (e == GameElement(MoodMatch) && !mood)
    || (e == GameElement(EmotionSort) && !sort)
  }

  /**
    On a quiz stage whose quiz is `q`, "Next" is disabled exactly until the
    selected option equals the correct answer, whatever the game flags say.
   */
  lemma QuizGatesNext(q: Quiz, selected: Option<string>, memory: bool, boss: bool, mood: bool, sort: bool)
    ensures NextDisabled(QuizElement, IsCorrect(selected, Some(q)), memory, boss, mood, sort)
            <==> selected != Some(q.correctAnswer)
  {
  }

  /** The recorded answer after the learner picks `option`: the first answer of a stage sticks. */
  function Answered(selected: Option<string>, option: string): (r: Option<string>)
    ensures r.Some?
    ensures selected.Some? ==> r == selected
    ensures selected.None? ==> r == Some(option)
  {
    if selected.Some? then selected else Some(option)
  }

  /** The recorded answer after the learner picks each of `options` in turn. */
  function AnsweredAll(selected: Option<string>, options: seq<string>): Option<string>
    decreases |options|
  {
    if options == [] then selected else AnsweredAll(Answered(selected, options[0]), options[1..])
  }

  /**
    A wrong first answer on a quiz stage keeps "Next" disabled for the rest
    of the stage, whatever the learner picks afterwards.
   */
  lemma {:induction false} WrongAnswerLocksStage(q: Quiz, selected: Option<string>, options: seq<string>,
                                                 memory: bool, boss: bool, mood: bool, sort: bool)
    requires selected.Some? && selected.value != q.correctAnswer
    ensures AnsweredAll(selected, options) == selected
    ensures NextDisabled(QuizElement, IsCorrect(AnsweredAll(selected, options), Some(q)), memory, boss, mood, sort)
    decreases |options|
  {
    if options != [] {
      WrongAnswerLocksStage(q, Answered(selected, options[0]), options[1..], memory, boss, mood, sort);
    }
  }

  class Lesson {
    var stageIndex: nat
    var selectedAnswer: Option<string>
    var isAnswered: bool
    var gameCompleted: bool
    var bossBattleCompleted: bool
    var moodMatchCompleted: bool
    var emotionSortCompleted: bool

    /** The index names a stage, and an answer is recorded exactly when one was given. */
    ghost predicate Valid()
      reads this
    {
      stageIndex < |Constants.LearningStages()| && (isAnswered <==> selectedAnswer.Some?)
    }

    constructor ()
      ensures Valid()
      ensures stageIndex == 0 && selectedAnswer == None && !isAnswered
      ensures !gameCompleted && !bossBattleCompleted && !moodMatchCompleted && !emotionSortCompleted
    {
      stageIndex := 0;
      selectedAnswer := None;
      isAnswered := false;
      gameCompleted := false;
      bossBattleCompleted := false;
      moodMatchCompleted := false;
      emotionSortCompleted := false;
    }

    function CurrentStage(): LearningStage
      reads this
      requires Valid()
    {
      Constants.LearningStages()[stageIndex]
    }

    /** The lesson is on its last stage, which has nothing to do and no badge to award. */
    predicate IsLastStage(): (b: bool)
      reads this
      ensures b ==> && stageIndex < |Constants.LearningStages()|
                    && Constants.LearningStages()[stageIndex].element == NoElement
                    && Constants.LearningStages()[stageIndex].badge == None
    {
      stageIndex == |Constants.LearningStages()| - 1
    }

    /**
      Whether the "Next" button is disabled in the current state: never on a
      stage without an element (the last one included), and on a quiz stage
      exactly until the recorded answer is the quiz's correct one.
     */
    predicate Disabled(): (d: bool)
      reads this
      requires Valid()
      ensures CurrentStage().element == NoElement ==> !d
      ensures IsLastStage() ==> !d
      ensures CurrentStage().element == QuizElement ==>
                CurrentStage().quiz.Some? && (d <==> selectedAnswer != Some(CurrentStage().quiz.value.correctAnswer))
    {
      Constants.StagesWellFormed();
      NextDisabled(CurrentStage().element, IsCorrect(selectedAnswer, CurrentStage().quiz),
                   gameCompleted, bossBattleCompleted, moodMatchCompleted, emotionSortCompleted)
    }

    /**
      `handleNext`: hands the current stage's badge (if any) to the ledger,
      then either signals that the module is finished (last stage, nothing
      changes) or advances one stage and clears every per-stage field.
     */
    method Next() returns (award: Option<string>, finish: bool)
      requires Valid()
      modifies this
      ensures Valid()
      ensures award == Constants.LearningStages()[old(stageIndex)].badge
      ensures finish <==> old(stageIndex) == |Constants.LearningStages()| - 1
      ensures finish ==> unchanged(this)
      ensures !finish ==> stageIndex == old(stageIndex) + 1
      ensures !finish ==> selectedAnswer == None && !isAnswered
      ensures !finish ==> !gameCompleted && !bossBattleCompleted && !moodMatchCompleted && !emotionSortCompleted
    {
      award := CurrentStage().badge;
      if IsLastStage() {
        finish := true;
        return;
      }
      finish := false;
      stageIndex := stageIndex + 1;
      selectedAnswer := None;
      isAnswered := false;
      gameCompleted := false;
      bossBattleCompleted := false;
      moodMatchCompleted := false;
      emotionSortCompleted := false;
    }

    /** `handleAnswerSelect`: the first answer of a stage sticks; later ones are ignored. */
    method AnswerSelect(option: string)
      requires Valid()
      modifies this`selectedAnswer, this`isAnswered
      ensures Valid()
      ensures selectedAnswer == Answered(old(selectedAnswer), option)
      ensures isAnswered
    {
      if isAnswered {
        return;
      }
      selectedAnswer := Some(option);
      isAnswered := true;
    }

    /** The `onGameComplete` callback of mini-game `g`: sets that game's flag only. */
    method CompleteGame(g: MiniGame)
      requires Valid()
      modifies this`gameCompleted, this`bossBattleCompleted, this`moodMatchCompleted, this`emotionSortCompleted
      ensures Valid()
      ensures GameFlag(g, gameCompleted, bossBattleCompleted, moodMatchCompleted, emotionSortCompleted)
      ensures forall h :: h != g ==>
                GameFlag(h, gameCompleted, bossBattleCompleted, moodMatchCompleted, emotionSortCompleted)
                == GameFlag(h, old(gameCompleted), old(bossBattleCompleted), old(moodMatchCompleted), old(emotionSortCompleted))
    {
      match g
      case MemoryMatch => gameCompleted := true;
      case BossBattle => bossBattleCompleted := true;
      case MoodMatch => moodMatchCompleted := true;
      case EmotionSort => emotionSortCompleted := true;
    }
  }
}
