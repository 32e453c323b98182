/**
  The quiz boss battle: the boss-battle questions in shuffled order, one
  answer per question, each correct answer striking the monster for an equal
  share of its 100 health. Health reaching zero wins at once; after the last
  question a verdict computed from the health seen when that answer was
  given decides between won and lost, and a lost battle can be restarted.
 */
module QuizBossBattle {
  import opened Types
  import opened Constants
  import opened Lists

  datatype GameState = Playing | Won | Lost

  const FullHealth: int := 100

  /** `DAMAGE_PER_HIT`: 100 divided by the number of questions, 25 for the four-question table. */
  const Damage: int := FullHealth / |BossBattleQuestions()|

  /**
    `Math.max(0, prev - DAMAGE_PER_HIT)` for a correct answer; a wrong one
    leaves the health. A strike never goes below zero and always hurts a
    monster that still has health.
   */
  function Hit(health: int, correct: bool): (h: int)
    ensures !correct ==> h == health
    ensures correct ==> 0 <= h
    ensures correct && health > 0 ==> h < health
  {
    assert Damage == 25;
    if !correct then health
    else if health - Damage > 0 then health - Damage
    else 0
  }

  /** How many of the recorded verdicts are correct. */
  function Hits(answers: seq<bool>): (n: nat)
    ensures n <= |answers|
    ensures n == |answers| <==> forall i :: 0 <= i < |answers| ==> answers[i]
  {
    if answers == [] then 0
    else
      var init := answers[..|answers| - 1];
      assert forall i :: 0 <= i < |init| ==> init[i] == answers[i];
      Hits(init) + (if answers[|answers| - 1] then 1 else 0)
  }

  /**
    The monster's health after the verdicts `answers`, applied one at a time
    from full health: full health less one share per correct answer, never
    below zero.
   */
  function HealthAfter(answers: seq<bool>): (h: int)
    ensures 0 <= h <= FullHealth
    ensures h == if FullHealth - Damage * Hits(answers) > 0 then FullHealth - Damage * Hits(answers) else 0
  {
    assert Damage == 25;
    if answers == [] then FullHealth
    else Hit(HealthAfter(answers[..|answers| - 1]), answers[|answers| - 1])
  }

  /** Within the table's length, the monster is beaten exactly when every question was answered correctly. */
  lemma DefeatedIffAllCorrect(answers: seq<bool>)
    requires |answers| <= |BossBattleQuestions()|
    ensures HealthAfter(answers) <= 0 <==>
              |answers| == |BossBattleQuestions()| && forall i :: 0 <= i < |answers| ==> answers[i]
  {
    assert Damage == 25;
    var n := Hits(answers);
    assert HealthAfter(answers) <= 0 <==> n >= 4;
  }

  /**
    The closure's `finalHealth`: the health seen when the answer was given,
    less a share if it was correct. Although it may go below zero, it is at
    most zero exactly when the clamped strike leaves no health.
   */
  function FinalHealth(staleHealth: int, correct: bool): (f: int)
    ensures 0 <= staleHealth ==> (f <= 0 <==> Hit(staleHealth, correct) == 0)
  {
    if correct then staleHealth - Damage else staleHealth
  }

  /**
    The verdict the delayed step computes from the health seen before the
    answer agrees with the health after the answer: both are at most zero
    together.
   */
  lemma StaleVerdictAgrees(answers: seq<bool>, correct: bool)
    ensures FinalHealth(HealthAfter(answers), correct) <= 0 <==> HealthAfter(answers + [correct]) <= 0
  {
    assert (answers + [correct])[..|answers|] == answers;
  }

  /** After the last question the battle is won exactly when every answer, the last included, was correct. */
  lemma LastVerdict(answers: seq<bool>, correct: bool)
    requires |answers| == |BossBattleQuestions()| - 1
    ensures FinalHealth(HealthAfter(answers), correct) <= 0 <==>
              correct && forall i :: 0 <= i < |answers| ==> answers[i]
  {
    var all := answers + [correct];
    StaleVerdictAgrees(answers, correct);
    DefeatedIffAllCorrect(all);
    assert forall i :: 0 <= i < |answers| ==> all[i] == answers[i];
    assert all[|answers|] == correct;
  }

  /** What the timeout scheduled by an answer captured: the answer, its verdict, the question index and the health. */
  datatype Scheduled = Scheduled(option: string, correct: bool, index: nat, health: int)

  class Battle {
    var questions: seq<BossQuestion>
    var index: nat
    var health: int
    var selected: Option<string>
    var answered: bool
    var state: GameState
    var pending: Option<Scheduled>
    /** The verdict of every question answered so far, in order. */
    ghost var answers: seq<bool>

    /**
      The questions are the table's; one verdict is recorded per answered
      question and the health is what they leave; a scheduled step captured
      the current answer and the health before it; the battle is won
      exactly when the health is gone, and it is lost only after the last
      question's step has run.
     */
    ghost predicate Valid()
      reads this
    {
      && |questions| == |BossBattleQuestions()|
      && (forall q :: q in questions ==> q in BossBattleQuestions())
      && index < |questions|
      && (answered <==> selected.Some?)
      && |answers| == index + (if answered then 1 else 0)
      && health == HealthAfter(answers)
      && (answered ==> answers[index] == (selected.value == questions[index].correctAnswer))
      && (pending.Some? ==>
            answered && pending.value == Scheduled(selected.value, answers[index], index, HealthAfter(answers[..index])))
      && (answered && pending.None? ==> index == |questions| - 1 && state != Playing)
      && (state == Won <==> health <= 0)
      && (state == Lost ==> answered && pending.None?)
    }

    /** A battle over the table in the order `order`, at full health with nothing answered. */
    constructor (order: seq<nat>)
      requires IsPermutation(order, |BossBattleQuestions()|)
      ensures Valid()
      ensures questions == Permute(BossBattleQuestions(), order)
      ensures index == 0 && health == FullHealth && selected == None && !answered
      ensures state == Playing && pending == None
    {
      questions := Permute(BossBattleQuestions(), order);
      index := 0;
      health := FullHealth;
      selected := None;
      answered := false;
      state := Playing;
      pending := None;
      answers := [];
    }

    /**
      `handleAnswerSelect` followed by the health-zero effect. A second
      answer to the same question is ignored. Otherwise the answer is
      recorded, a correct one strikes the monster, the delayed step is
      scheduled with the health seen before the strike, and health at zero
      wins and signals completion.
     */
    method AnswerSelect(option: string) returns (complete: bool)
      requires Valid() && state == Playing
      modifies this
      ensures Valid()
      ensures old(answered) ==> unchanged(this) && !complete
      ensures !old(answered) ==>
                var correct := option == old(questions[index].correctAnswer);
                && answered && selected == Some(option)
                && questions == old(questions) && index == old(index)
                && health == Hit(old(health), correct)
                && pending == Some(Scheduled(option, correct, old(index), old(health)))
                && answers == old(answers) + [correct]
      ensures complete <==> !old(answered) && health <= 0
      ensures state == (if health <= 0 then Won else Playing)
    {
      if answered {
        return false;
      }
      var correct := option == questions[index].correctAnswer;
      var before := health;
      answered := true;
      selected := Some(option);
      health := Hit(health, correct);
      answers := answers + [correct];
      assert answers[..index] == old(answers);
      pending := Some(Scheduled(option, correct, index, before));
      complete := health <= 0;
      if complete {
        state := Won;
      }
    }

    /**
      The step 1.5 seconds after an answer, working on what it captured.
      Before the last question it moves to the next one with nothing
      answered. After the last it declares won when the captured health less
      the answer's damage is at most zero and lost otherwise; completion is
      signalled when that newly wins.
     */
    method AfterDelay() returns (complete: bool)
      requires Valid() && pending.Some?
      modifies this
      ensures Valid()
      ensures pending == None && questions == old(questions) && health == old(health)
      ensures old(pending.value.index) < |questions| - 1 ==>
                index == old(index) + 1 && selected == None && !answered && state == old(state) && !complete
      ensures old(pending.value.index) == |questions| - 1 ==>
                && index == old(index) && selected == old(selected) && answered
                && state == (if FinalHealth(old(pending.value.health), old(pending.value.correct)) <= 0 then Won else Lost)
                && (complete <==> old(state) != Won && state == Won)
                && (state == Won <==> forall i :: 0 <= i < |answers| ==> answers[i])
    {
      var p := pending.value;
      pending := None;
      if p.index < |questions| - 1 {
        index := index + 1;
        selected := None;
        answered := false;
        return false;
      }
      var before := answers[..index];
      assert answers == before + [p.correct];
      StaleVerdictAgrees(before, p.correct);
      LastVerdict(before, p.correct);
      var verdict := if FinalHealth(p.health, p.correct) <= 0 then Won else Lost;
      complete := verdict == Won && state != Won;
      state := verdict;
    }

    /** `resetGame` from the lost screen: the table reshuffled into `order`, full health, nothing answered. */
    method Reset(order: seq<nat>)
      requires Valid() && state == Lost && IsPermutation(order, |BossBattleQuestions()|)
      modifies this
      ensures Valid()
      ensures questions == Permute(BossBattleQuestions(), order)
      ensures index == 0 && health == FullHealth && selected == None && !answered
      ensures state == Playing && pending == None
    {
      questions := Permute(BossBattleQuestions(), order);
      index := 0;
      health := FullHealth;
      selected := None;
      answered := false;
      state := Playing;
      answers := [];
    }
  }
}
