/**
  The application shell: the badge ledger, the chatbot configuration shared
  by the builder and the playground, and the page router that moves the
  learner from the landing page through the lesson to the builder and the
  playground.
 */
module App {
  import opened Types
  import Constants
  import LearningModule

  /**
    `handleEarnBadge`: the badge with identifier `id` becomes earned, every
    other badge is kept, and the ledger keeps its length and order.
   */
  function Award(badges: seq<Badge>, id: string): (r: seq<Badge>)
    ensures |r| == |badges|
    ensures forall i :: 0 <= i < |badges| && badges[i].id == id ==> r[i] == badges[i].(earned := true)
    ensures forall i :: 0 <= i < |badges| && badges[i].id != id ==> r[i] == badges[i]
  {
    seq(|badges|, i requires 0 <= i < |badges| =>
      if badges[i].id == id && !badges[i].earned then badges[i].(earned := true) else badges[i])
  }

  /** An identifier no badge carries leaves the ledger as it was. */
  lemma AwardUnknownId(badges: seq<Badge>, id: string)
    requires forall i :: 0 <= i < |badges| ==> badges[i].id != id
    ensures Award(badges, id) == badges
  {
  }

  /** Earning a badge twice is the same as earning it once. */
  lemma AwardIdempotent(badges: seq<Badge>, id: string)
    ensures Award(Award(badges, id), id) == Award(badges, id)
  {
  }

  /** The order in which two badges are earned does not matter. */
  lemma AwardCommutes(badges: seq<Badge>, a: string, b: string)
    ensures Award(Award(badges, a), b) == Award(Award(badges, b), a)
  {
  }

  /** The ledger after earning each of `ids` in turn. */
  function AwardAll(badges: seq<Badge>, ids: seq<string>): seq<Badge>
    decreases |ids|
  {
    if ids == [] then badges else AwardAll(Award(badges, ids[0]), ids[1..])
  }

  /**
    However many badges are earned afterwards, the ledger keeps its entries
    and their order, an earned badge stays earned, and only the earned flag
    of an entry ever changes.
   */
  lemma {:induction false} EarnedStaysEarned(badges: seq<Badge>, ids: seq<string>)
    ensures |AwardAll(badges, ids)| == |badges|
    ensures forall i :: 0 <= i < |badges| && badges[i].earned ==> AwardAll(badges, ids)[i].earned
    ensures forall i :: 0 <= i < |badges| ==> AwardAll(badges, ids)[i].(earned := badges[i].earned) == badges[i]
    decreases |ids|
  {
    if ids != [] {
      EarnedStaysEarned(Award(badges, ids[0]), ids[1..]);
    }
  }

  /** The buttons that change page: start, finish the lesson, continue to the playground, go back. */
  datatype Action = Start | FinishModule | Continue | GoBack

  /**
    The page each page's callback leads to: landing to learning on start,
    learning to builder when the lesson finishes, builder to playground on
    continue, playground back to builder. Any other pairing has no such
    callback on screen.
   */
  function Navigate(page: Page, action: Action): (r: Option<Page>)
    ensures r == Some(LearningPage) <==> page == LandingPage && action == Start
    ensures r == Some(BuilderPage) <==>
              (page == LearningPage && action == FinishModule) || (page == PlaygroundPage && action == GoBack)
    ensures r == Some(PlaygroundPage) <==> page == BuilderPage && action == Continue
    ensures r != Some(LandingPage)
  {
    match (page, action)
    case (LandingPage, Start) => Some(LearningPage)
    case (LearningPage, FinishModule) => Some(BuilderPage)
    case (BuilderPage, Continue) => Some(PlaygroundPage)
    case (PlaygroundPage, GoBack) => Some(BuilderPage)
    case _ => None
  }

  /** The page after pressing `actions` in turn; an action without a callback on screen does nothing. */
  function Run(page: Page, actions: seq<Action>): Page
    decreases |actions|
  {
    if actions == [] then page
    else
      var next := Navigate(page, actions[0]);
      Run(if next.Some? then next.value else page, actions[1..])
  }

  /** The landing page is never entered again: a run ends there exactly when it started there and never started. */
  lemma {:induction false} LandingNeverReentered(page: Page, actions: seq<Action>)
    ensures Run(page, actions) == LandingPage <==> page == LandingPage && Start !in actions
    decreases |actions|
  {
    if actions != [] {
      var next := Navigate(page, actions[0]);
      LandingNeverReentered(if next.Some? then next.value else page, actions[1..]);
      assert actions == [actions[0]] + actions[1..];
    }
  }

  class Session {
    var page: Page
    var badges: seq<Badge>
    var config: ChatbotConfig

    /** The ledger holds the initial badges in order; only their earned flags differ. */
    ghost predicate Valid()
      reads this
    {
      && |badges| == |Constants.InitialBadges()|
      && forall i :: 0 <= i < |badges| ==> badges[i].(earned := false) == Constants.InitialBadges()[i]
    }

    /** The session starts on the landing page with no badge earned and an empty, friendly "MyBot". */
    constructor ()
      ensures Valid()
      ensures page == LandingPage && badges == Constants.InitialBadges()
      ensures config == ChatbotConfig("MyBot", Friendly, [])
    {
      page := LandingPage;
      badges := Constants.InitialBadges();
      config := ChatbotConfig("MyBot", Friendly, []);
    }

    /** `handleEarnBadge`, called by the lesson and by the playground. */
    method EarnBadge(id: string)
      requires Valid()
      modifies this`badges
      ensures Valid()
      ensures badges == Award(old(badges), id)
    {
      badges := Award(badges, id);
    }

    /** A page callback: moves to the page it leads to; one not on screen changes nothing. */
    method Go(action: Action)
      requires Valid()
      modifies this`page
      ensures Valid()
      ensures page == (if Navigate(old(page), action).Some? then Navigate(old(page), action).value else old(page))
    {
      var next := Navigate(page, action);
      if next.Some? {
        page := next.value;
      }
    }

    /** `onConfigChange` from the builder: the shared configuration is replaced. */
    method ChangeConfig(c: ChatbotConfig)
      requires Valid()
      modifies this`config
      ensures Valid()
      ensures config == c
    {
      config := c;
    }

    /**
      Pressing the lesson's enabled "Next" button: the stage's badge, if it
      has one, is earned in the ledger; the last stage then moves the session
      to the builder and leaves the lesson as it was, any other advances the
      lesson with every per-stage field cleared.
     */
    method PressNext(lesson: LearningModule.Lesson)
      requires Valid() && lesson.Valid() && page == LearningPage && !lesson.Disabled()
      modifies this, lesson
      ensures Valid() && lesson.Valid()
      ensures var badge := Constants.LearningStages()[old(lesson.stageIndex)].badge;
              badges == (if badge.Some? then Award(old(badges), badge.value) else old(badges))
      ensures old(lesson.IsLastStage()) ==> page == BuilderPage && unchanged(lesson)
      ensures !old(lesson.IsLastStage()) ==>
                && page == LearningPage && lesson.stageIndex == old(lesson.stageIndex) + 1
                && lesson.selectedAnswer == None && !lesson.isAnswered
                && !lesson.gameCompleted && !lesson.bossBattleCompleted
                && !lesson.moodMatchCompleted && !lesson.emotionSortCompleted
      ensures config == old(config)
    {
      var award, finish := lesson.Next();
      if award.Some? {
        EarnBadge(award.value);
      }
      if finish {
        Go(FinishModule);
      }
    }
  }
}
