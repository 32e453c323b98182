/**
  The mood picture match: four scenes asked in order; the first option the
  learner picks for a scene is final, a correct pick moves on after a delay
  (or completes the game on the last scene), and a wrong pick locks the
  scene.
 */
module MoodPictureMatch {
  import opened Types
  import opened Constants

  /** `if (selectedAnswer)`: JavaScript truthiness of the recorded answer (null and "" are false). */
  predicate Truthy(selected: Option<string>)
  {
    selected.Some? && selected.value != ""
  }

  /** Every option the scenes offer is truthy once recorded. */
  lemma OptionsAreTruthy(i: nat, option: string)
    requires i < |MoodMatchQuestions()| && option in MoodMatchQuestions()[i].options
    ensures Truthy(Some(option))
  {
    var options := MoodMatchQuestions()[i].options;
    var k :| 0 <= k < |options| && options[k] == option;
  }

  function LastIndex(): nat
  {
    |MoodMatchQuestions()| - 1
  }

  class Matcher {
    var index: nat
    var selected: Option<string>
    var isCorrect: Option<bool>
    /** The delayed step after a correct answer has not run yet. */
    var pending: bool

    /**
      The index names a scene; an answer and its verdict are recorded
      together, only options of the current scene are ever recorded, a
      correct verdict is the scene's answer, and it is either waiting for the
      delayed step or final on the last scene.
     */
    ghost predicate Valid()
      reads this
    {
      && index < |MoodMatchQuestions()|
      && (selected.Some? <==> isCorrect.Some?)
      && (selected.Some? ==> selected.value in MoodMatchQuestions()[index].options)
      && (isCorrect.Some? ==> (isCorrect.value <==> selected.value == MoodMatchQuestions()[index].correctAnswer))
      && (pending ==> isCorrect == Some(true))
      && (isCorrect == Some(true) && !pending ==> index == LastIndex())
    }

    constructor ()
      ensures Valid()
      ensures index == 0 && selected == None && isCorrect == None && !pending
    {
      index := 0;
      selected := None;
      isCorrect := None;
      pending := false;
    }

    /** `allDone`: the last scene has been answered, and with its correct answer. */
    predicate AllDone(): (b: bool)
      reads this
      ensures Valid() ==>
                (b <==> index == LastIndex() && selected == Some(MoodMatchQuestions()[LastIndex()].correctAnswer))
    {
      index == LastIndex() && isCorrect == Some(true)
    }

    /**
      `handleAnswerClick` on one of the current scene's options: ignored
      while an answer is recorded; otherwise records it and its verdict, and
      a correct answer schedules the delayed step.
     */
    method Click(option: string)
      requires Valid() && option in MoodMatchQuestions()[index].options
      modifies this
      ensures Valid()
      ensures old(selected).Some? ==> unchanged(this)
      ensures old(selected).None? ==>
                && index == old(index)
                && selected == Some(option)
                && isCorrect == Some(option == MoodMatchQuestions()[index].correctAnswer)
                && (pending <==> option == MoodMatchQuestions()[index].correctAnswer)
    {
      if selected.Some? {
        OptionsAreTruthy(index, selected.value);
      }
      if Truthy(selected) {
        return;
      }
      selected := Some(option);
      var correct := option == MoodMatchQuestions()[index].correctAnswer;
      isCorrect := Some(correct);
      if correct {
        pending := true;
      }
    }

    /**
      The step 1.5 seconds after a correct answer: on the last scene it
      signals completion and changes nothing else; otherwise it moves to the
      next scene with nothing recorded.
     */
    method AfterDelay() returns (complete: bool)
      requires Valid() && pending
      modifies this
      ensures Valid()
      ensures complete <==> old(index) == LastIndex()
      ensures complete ==> index == old(index) && selected == old(selected) && isCorrect == Some(true) && AllDone()
      ensures !complete ==> index == old(index) + 1 && selected == None && isCorrect == None && !AllDone()
      ensures !pending
    {
      pending := false;
      if index == LastIndex() {
        return true;
      }
      index := index + 1;
      selected := None;
      isCorrect := None;
      complete := false;
    }
  }

  /**
    A wrong answer locks the scene: whatever options of the scene the learner
    clicks afterwards, nothing changes, no delayed step is waiting, and the
    game is not done.
   */
  method WrongAnswerLocks(m: Matcher, clicks: seq<string>)
    requires m.Valid() && m.isCorrect == Some(false)
    requires forall o :: o in clicks ==> o in MoodMatchQuestions()[m.index].options
    modifies m
    ensures m.Valid() && unchanged(m)
    ensures !m.pending && !m.AllDone()
  {
    var k := 0;
    while k < |clicks|
      invariant 0 <= k <= |clicks|
      invariant m.Valid() && unchanged(m)
    {
      m.Click(clicks[k]);
      k := k + 1;
    }
  }
}
