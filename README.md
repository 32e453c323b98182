# Sentiment Detective bot — a Dafny model of the tutorial's state machines

The application is a single-page tutorial for children. A learner walks through
ten lesson stages. Each stage may hold a quiz or one of four mini-games, and
finishing a stage can award a badge. The learner then builds a rule-based
chatbot and chats with it in a playground. When no rule answers, an AI service
replies.

This project models the parts of that application that decide things. Each
event handler, and each delayed step it schedules, becomes one operation:

* **App** (`app.dfy`) holds the badge ledger, the shared chatbot configuration
  and the page router. Earning a badge is a pure `map` over the ledger. The
  session is a class whose page, badges and configuration the handlers overwrite.
* **LearningModule** (`learning_module.dfy`) is the lesson controller. A stage
  index walks the stage table. Each stage's answer and the games' completion
  flags are kept, and a pure predicate disables "Next".
* **ChatbotBuilder** (`chatbot_builder.dfy`) adds, removes and re-personalises
  rules as pure functions from the old configuration to the new one. The draft
  rule is a small class.
* **Playground** (`playground.dfy`) is the chat. It holds the rule lookup
  (first match, lowercased and trimmed), the `joke_master` condition, the
  history handed to the AI service and the transcript. The transcript is a
  class whose guarded submit appends one user message, and each delivered reply
  appends one bot message.
* **MemoryGame**, **MoodPictureMatch**, **EmotionSortingGallery** and
  **QuizBossBattle** are the four mini-games, each a class. Each component
  state cell is a field. One method models one click, drop or tick together
  with the effect React runs right after it. Another method models the delayed
  step that `setTimeout` schedules.
* **Constants** (`constants.dfy`) holds the immutable tables. Their
  well-formedness is proved: ids, quiz answers among the options, and badges
  present in the ledger.
* **Types** (`types.dfy`) mirrors `types.ts`. **Text** (`text.dfy`) gives ASCII
  definitions of `trim`, `toLowerCase`, `includes` and `split`. **Lists**
  (`lists.dfy`) applies a permutation, which stands in for the random shuffles,
  and holds the first-occurrence search behind `find` and `split`.

## Model

| member | source | states |
|---|---|---|
| Text.TrimStart | components/Playground.tsx:35 | The result is a suffix of the input that starts with a non-space character. It is empty exactly when the input is all whitespace. |
| Text.TrimEnd | components/Playground.tsx:35 | The result is a prefix of the input that ends with a non-space character. It is empty exactly when the input is all whitespace. |
| Text.TrimStartDropsSpace | components/Playground.tsx:35 | Every character that trimming removes from the front is whitespace. |
| Text.TrimEndDropsSpace | components/Playground.tsx:35 | Every character that trimming removes from the back is whitespace. |
| Text.Trim | components/Playground.tsx:35 | `trim()` gives a result that is no longer than its input, does not start or end with whitespace, and is empty exactly when the input is all whitespace. |
| Text.TrimIsPadded | components/Playground.tsx:35 | The input is the trimmed text with only whitespace around it. |
| Text.IsBlank | components/ChatbotBuilder.tsx:17 | `!s.trim()` holds exactly when every character is whitespace. |
| Text.ToLower | components/Playground.tsx:35 | `toLowerCase()` keeps the length, lowers each character in place, and leaves no upper-case ASCII letter. |
| Text.Contains | components/Playground.tsx:45 | `includes(sub)` holds exactly when `sub` occurs at some position. |
| Text.Split | components/Playground.tsx:15 | `split(sep)` gives at least one part, and no part contains the separator. |
| Text.JoinSplit | components/Playground.tsx:15 | Joining the parts of a split with the separator gives back the original string. |
| Lists.Permute | components/MemoryGame.tsx:17-19 | A shuffle keeps the length, puts `s[perm[i]]` at position `i`, and has exactly the elements of its input. |
| Lists.PermutationCovers | components/MemoryGame.tsx:17-19 | A permutation of `0..n-1` reaches every index, so nothing is lost in a shuffle. |
| Lists.FirstIndex | components/Playground.tsx:35 | The search behind `find` and `split`. The result is the position of the first occurrence, or the length when there is none. |
| Lists.FirstIndexAppend | components/Playground.tsx:35 | Appending to a sequence never moves an occurrence it already has: the first one stays first. |
| Constants.InitialBadges | constants.tsx:11-20 | The ledger has eight badges, none earned, and the last one is `joke_master`. |
| Constants.BadgeIdsDistinct | constants.tsx:11-20 | The badge ids are pairwise distinct. |
| Constants.MemoryGamePairs | constants.tsx:22-27 | There are four pairs, with ids 1 to 4 in order. |
| Constants.BossBattleQuestions | constants.tsx:29-50 | There are four questions, and each correct answer is one of its question's options. |
| Constants.MoodMatchQuestions | constants.tsx:52-57 | There are four scenes. Each correct answer is one of its scene's options, and every option is a non-empty string. |
| Constants.EmotionSortingItems | constants.tsx:59-68 | There are eight items, with ids 1 to 8 in order. |
| Constants.RuleQuiz | constants.tsx:93-97 | The correct answer of stage 3's quiz is one of its options. |
| Constants.AiQuiz | constants.tsx:114-118 | The correct answer of stage 5's quiz is one of its options. |
| Constants.LearningStages | constants.tsx:71-158 | There are ten stages. The first awards `first_step` and has no element. The last has no badge and no element. |
| Constants.Stage | constants.tsx:72-158 | Each stage entry carries its own number, and it has a quiz exactly when its element is a quiz. |
| Constants.StageIsWellFormed | constants.tsx:72-158 | Stage `id` has the number `id`. It carries a quiz exactly when its element is a quiz, and that quiz's answer is among its options. Its badge is in the ledger. |
| Constants.StagesWellFormed | constants.tsx:71-158 | Every entry of the stage table is well formed at its position, so the ids run 1 to 10 in order. |
| Constants.JokeMasterInLedger | constants.tsx:19 | The badge the playground awards is one of the ledger's ids. |
| LearningModule.IsCorrect | components/LearningModule.tsx:54 | The answer is false without a quiz or without an answer. Otherwise it holds exactly when the answer equals the quiz's correct answer. |
| LearningModule.NextDisabled | components/LearningModule.tsx:129-135 | A stage without an element never disables "Next". A quiz disables it exactly until its answer is correct. A game disables it exactly until that game's own flag is set. |
| LearningModule.QuizGatesNext | components/LearningModule.tsx:129-135 | On a quiz stage, "Next" is disabled exactly when the selected answer is not the correct one, whatever the game flags are. |
| LearningModule.Answered | components/LearningModule.tsx:48-52 | After a pick an answer is recorded. An answer that was already recorded is kept; otherwise the pick is recorded. |
| LearningModule.WrongAnswerLocksStage | components/LearningModule.tsx:48-54 | After a wrong first answer, any later picks keep that answer, and "Next" stays disabled. |
| LearningModule.Lesson.constructor | components/LearningModule.tsx:16-22 | The lesson starts at stage 0 with no answer and every game flag cleared. |
| LearningModule.Lesson.IsLastStage | components/LearningModule.tsx:27 | On the last stage there is nothing to do and no badge to award. |
| LearningModule.Lesson.Disabled | components/LearningModule.tsx:129-135 | "Next" is never disabled on a stage without an element, so never on the last stage. On a quiz stage the stage has a quiz, and "Next" is disabled exactly until the recorded answer is its correct one. |
| LearningModule.Lesson.Next | components/LearningModule.tsx:29-46 | `handleNext` hands over the current stage's badge. On the last stage it signals finish and changes nothing. Otherwise it advances one stage and clears the answer and all four game flags. |
| LearningModule.Lesson.AnswerSelect | components/LearningModule.tsx:48-52 | The first answer of a stage sticks, and the stage is marked answered. |
| LearningModule.Lesson.CompleteGame | components/LearningModule.tsx:110-122 | A game's completion callback sets that game's flag and leaves the other three as they were. |
| ChatbotBuilder.WithoutRule | components/ChatbotBuilder.tsx:30 | The filter keeps exactly the rules with another id. An absent id leaves the list as it was. |
| ChatbotBuilder.WithoutRuleAppend | components/ChatbotBuilder.tsx:30 | Filtering distributes over concatenation, so the kept rules stay in order. |
| ChatbotBuilder.WithoutRuleIdempotent | components/ChatbotBuilder.tsx:30 | Removing the same id twice is the same as removing it once. |
| ChatbotBuilder.AddRule | components/ChatbotBuilder.tsx:15-25 | No change happens exactly when a field is blank after trimming. Otherwise one rule with the untrimmed text and the new id is appended, and the earlier rules, the name and the personality are kept. |
| ChatbotBuilder.RemoveRule | components/ChatbotBuilder.tsx:27-33 | Exactly the rules with that id are dropped. The name and personality are kept, and an absent id changes nothing. |
| ChatbotBuilder.ChangePersonality | components/ChatbotBuilder.tsx:35-37 | Only the personality changes. The name and the rules are kept. |
| ChatbotBuilder.AddThenRemove | components/ChatbotBuilder.tsx:17-33 | Removing a rule that was just added under a fresh id restores the configuration. |
| ChatbotBuilder.Builder.constructor | components/ChatbotBuilder.tsx:13 | The draft starts with both fields empty. |
| ChatbotBuilder.Builder.EditQuestion | components/ChatbotBuilder.tsx:69 | Typing replaces the draft question. |
| ChatbotBuilder.Builder.EditAnswer | components/ChatbotBuilder.tsx:76 | Typing replaces the draft answer. |
| ChatbotBuilder.Builder.Add | components/ChatbotBuilder.tsx:15-25 | The submitted change is `AddRule` of the draft. The draft is cleared exactly when a rule was added and kept otherwise. |
| Playground.Normalize | components/Playground.tsx:35 | The compared form has no capital letter and no whitespace at either end, is no longer than its input, and is empty exactly when the input is all whitespace. |
| Playground.NormalizeIdempotent | components/Playground.tsx:35 | Normalizing an already compared form changes nothing. |
| Playground.Matches | components/Playground.tsx:35 | A rule answers an input when their compared forms are equal. `NormalizeIdempotent` shows that the input's own compared form matches the same rules. |
| Playground.Keys | components/Playground.tsx:35 | There is one compared key per rule, in list order. `KeysAppend` gives its partner property. |
| Playground.KeysAppend | components/Playground.tsx:35 | The keys of a longer rule list are the keys of the original list followed by the keys of the added rules. |
| Playground.FindRule | components/Playground.tsx:35 | `find` gives nothing exactly when no rule matches. Otherwise it gives a matching rule that no earlier rule matches first. |
| Playground.FindRuleExtend | components/Playground.tsx:35 | Appending rules never changes an answer the list already gives. |
| Playground.EarnsJokeBadge | components/Playground.tsx:45 | The badge condition. `JokeBadgeCondition` shows it holds exactly for the funny personality with "joke" or "funny" in the lowercased input. |
| Playground.FunnyLabel | components/Playground.tsx:45 | Only the funny personality's label contains "Funny". |
| Playground.JokeBadgeCondition | components/Playground.tsx:45 | The joke condition holds exactly for the funny personality together with "joke" or "funny" in the lowercased input. |
| Playground.PersonalityWord | components/Playground.tsx:15 | `personality.split(' ')[1]` is the personality's name for every personality, so it is never `undefined`. |
| Playground.Greeting | components/Playground.tsx:15 | The opening message names the personality's word. It is written with `Name(p)`, which `PersonalityWord` shows equal to the split. |
| Playground.History | components/Playground.tsx:49-52 | There is one history turn per prior message, in order. Each keeps its text and maps user to `user` and bot to `model`. |
| Playground.HistoryAppend | components/Playground.tsx:49-52 | The history of a longer transcript extends the history of the shorter one. |
| Playground.Resolve | components/Playground.tsx:35-55 | The reply comes from a rule exactly when one matches, and then it is the first match's answer, with no badge and no AI request. Otherwise the AI is asked with the untrimmed input, the personality and the prior history. `joke_master` is awarded exactly on the AI path under the joke condition. |
| Playground.AlternatesAppend | components/Playground.tsx:30-56 | Appending a message from the other sender keeps the transcript alternating between bot and user. |
| Playground.Chat.constructor | components/Playground.tsx:14-18 | The transcript starts as the bot's greeting alone, with an empty input and nothing loading. |
| Playground.Chat.SetInput | components/Playground.tsx:103 | Typing replaces the input. |
| Playground.Chat.Submit | components/Playground.tsx:25-33 | A blank input or a pending reply leaves everything as it was. Otherwise the untrimmed input is appended as a user message, the input is cleared and loading starts. The awaited reply, the badge and the AI request are those `Resolve` decides on the transcript before the new message. |
| Playground.Chat.Accept | components/Playground.tsx:29-32 | The accepted user message is appended, the input is cleared, and loading starts with the awaited reply recorded. |
| Playground.Chat.DeliverRuleReply | components/Playground.tsx:38-42 | The rule's answer is appended as a bot message tagged `rule`, and loading ends. |
| Playground.Chat.DeliverAiReply | components/Playground.tsx:54-57 | The AI text is appended as a bot message tagged `ai`. Loading ends after it is appended. |
| MemoryGame.CardsOf | components/MemoryGame.tsx:29-30 | Pair `p` gives a sentence card with id 2p−1 and an emoji card with id 2p, both with pair id p. |
| MemoryGame.Deck | components/MemoryGame.tsx:27-31 | The deck has two cards per pair, and the pair's sentence and emoji sit at positions 2k and 2k+1. |
| MemoryGame.DeckShape | components/MemoryGame.tsx:27-31 | Every dealt card starts face down and unmatched. Its pair id is its pair's id, and its id is 2m−1 or 2m. |
| MemoryGame.DeckIdsDistinct | components/MemoryGame.tsx:27-31 | With distinct pair ids, all card ids in the deck are distinct. |
| MemoryGame.BuildDeck | components/MemoryGame.tsx:27-31 | The `push` loop builds exactly `Deck(pairs)`. |
| MemoryGame.FlipAt | components/MemoryGame.tsx:73 | Only the clicked card turns face up, and every other card is unchanged. |
| MemoryGame.MarkMatched | components/MemoryGame.tsx:43-45 | Exactly the cards of that pair become matched, and no other field changes. |
| MemoryGame.Unflip | components/MemoryGame.tsx:50-52 | Exactly the two indices turn face down, and every other card is unchanged. |
| MemoryGame.AllMatched | components/MemoryGame.tsx:77 | The completion condition. `DealtDeckNotComplete` shows that a fresh deal never meets it. |
| MemoryGame.DealtDeckNotComplete | components/MemoryGame.tsx:61 | A freshly dealt non-empty deck does not meet the completion condition. |
| MemoryGame.Board.constructor | components/MemoryGame.tsx:22-24 | The board starts with no cards, nothing flipped and no check running. |
| MemoryGame.Board.Deal | components/MemoryGame.tsx:26-33 | The mount effect deals the pairs' deck in the given shuffle order. |
| MemoryGame.Board.Click | components/MemoryGame.tsx:35-75 | A click while checking, on a face-up card, or with two cards already in the pending list is ignored. Otherwise one card turns face up and is recorded. A second card with the same pair id marks the pair matched and clears the list; an unequal second card starts a check. `isMatched` is never reset, and the pending list of flipped cards never holds more than two. |
| MemoryGame.Board.ResolveMismatch | components/MemoryGame.tsx:49-55 | Exactly the two unequal cards turn face down, the list is cleared, the check ends, and matches are kept. |
| MoodPictureMatch.Truthy | components/MoodPictureMatch.tsx:18 | The `if (selectedAnswer)` test. `OptionsAreTruthy` shows it holds for every recorded option. |
| MoodPictureMatch.OptionsAreTruthy | components/MoodPictureMatch.tsx:18 | Every recorded option is truthy, so the `if (selectedAnswer)` guard blocks every later click. |
| MoodPictureMatch.Matcher.constructor | components/MoodPictureMatch.tsx:9-11 | The game starts at scene 0 with no answer and no verdict. |
| MoodPictureMatch.Matcher.AllDone | components/MoodPictureMatch.tsx:39 | `allDone` holds exactly when the last scene has been answered with its correct answer. |
| MoodPictureMatch.Matcher.Click | components/MoodPictureMatch.tsx:17-26 | A click is ignored once an answer is recorded. Otherwise it records the answer and its verdict (equality with the correct answer), and a correct answer schedules the delayed step. |
| MoodPictureMatch.Matcher.AfterDelay | components/MoodPictureMatch.tsx:27-35 | On the last scene the step signals completion without advancing. Otherwise it moves to the next scene and clears the answer and the verdict. The index stays within the table. |
| MoodPictureMatch.WrongAnswerLocks | components/MoodPictureMatch.tsx:17-39 | After a wrong answer, any sequence of clicks on the scene's options changes nothing. No step is pending, and `allDone` is false. |
| EmotionSortingGallery.WithoutItem | components/EmotionSortingGallery.tsx:62 | The filter keeps exactly the items with another id and preserves distinct ids. |
| EmotionSortingGallery.WithoutPresentItem | components/EmotionSortingGallery.tsx:61-62 | With distinct ids, removing a present item shrinks the pool by exactly one. |
| EmotionSortingGallery.WithoutAbsentId | components/EmotionSortingGallery.tsx:62 | Filtering out an id that no item carries changes nothing. |
| EmotionSortingGallery.ShuffledIdsDistinct | components/EmotionSortingGallery.tsx:17 | Every shuffle of the items keeps their ids distinct. |
| EmotionSortingGallery.Gallery.constructor | components/EmotionSortingGallery.tsx:17-23 | The game starts with the shuffled items, 30 seconds, score 0, playing, and nothing dragged. |
| EmotionSortingGallery.Gallery.DragStart | components/EmotionSortingGallery.tsx:48-50 | Dragging records the item. |
| EmotionSortingGallery.Gallery.Drop | components/EmotionSortingGallery.tsx:56-79 | With nothing dragged the drop changes nothing. The right bin adds one to the score and removes the item; the wrong bin changes neither. The dragged item is cleared, and an emptied pool wins and signals completion. Score plus pool size stays eight. |
| EmotionSortingGallery.Gallery.Tick | components/EmotionSortingGallery.tsx:25-40 | A tick while playing takes one second off the timer, and reaching zero loses. |
| EmotionSortingGallery.Gallery.Reset | components/EmotionSortingGallery.tsx:81-86 | From the lost screen the game restores all items in a new shuffle, 30 seconds, score 0 and playing. |
| QuizBossBattle.Hit | components/QuizBossBattle.tsx:29-30 | A wrong answer leaves the health. A correct one never takes it below zero, and always lowers health that is above zero. |
| QuizBossBattle.FinalHealth | components/QuizBossBattle.tsx:40 | The unclamped `finalHealth` is at most zero exactly when the clamped strike leaves no health. |
| QuizBossBattle.Hits | components/QuizBossBattle.tsx:29-31 | The count of correct answers is at most the number answered. It equals that number exactly when every answer was correct. |
| QuizBossBattle.HealthAfter | components/QuizBossBattle.tsx:14-31 | Health starts at 100 and loses 25 per correct answer, never going below 0. |
| QuizBossBattle.DefeatedIffAllCorrect | components/QuizBossBattle.tsx:19-54 | Within the table's length, health reaches 0 exactly when all four questions were answered correctly. |
| QuizBossBattle.StaleVerdictAgrees | components/QuizBossBattle.tsx:40-41 | The delayed step's `finalHealth` is computed from the health before the answer. It is at most 0 exactly when the health after the answer is. |
| QuizBossBattle.LastVerdict | components/QuizBossBattle.tsx:39-45 | After the last question the verdict is "won" exactly when every answer, the last included, was correct. |
| QuizBossBattle.Battle.constructor | components/QuizBossBattle.tsx:12-17 | The battle starts with the shuffled questions at index 0, health 100, no answer, and playing. |
| QuizBossBattle.Battle.AnswerSelect | components/QuizBossBattle.tsx:23-54 | Only the first answer per question is accepted. A correct answer lowers health by 25, never below 0; a wrong answer leaves it. The delayed step captures the health from before the answer. Health at 0 wins and signals completion. |
| QuizBossBattle.Battle.AfterDelay | components/QuizBossBattle.tsx:33-47 | Before the last question the step advances one index and clears the answer state. After the last it declares won exactly when every answer was correct, and lost otherwise. |
| QuizBossBattle.Battle.Reset | components/QuizBossBattle.tsx:62-69 | From the lost screen the battle restores a new shuffle, index 0, health 100, no answer and playing. |
| App.Award | App.tsx:21-25 | The badge with that id becomes earned, every other badge is unchanged, and length and order are kept. |
| App.AwardUnknownId | App.tsx:23 | An id that no badge carries leaves the ledger unchanged. |
| App.AwardIdempotent | App.tsx:23 | Earning a badge twice gives the same ledger as earning it once. |
| App.AwardCommutes | App.tsx:21-25 | The order in which two badges are earned does not matter. |
| App.EarnedStaysEarned | App.tsx:21-25 | However many badges are earned afterwards, the ledger keeps its entries in order, an earned flag never returns to false, and nothing but earned flags changes. |
| App.Navigate | App.tsx:27-40 | The only transitions are landing to learning on start, learning to builder on finish, builder to playground on continue, and playground to builder on back. No transition leads to the landing page. |
| App.LandingNeverReentered | App.tsx:27-40 | A run ends on the landing page exactly when it started there and never pressed start. |
| App.Session.constructor | App.tsx:13-19 | The session starts on the landing page with the initial badges and an empty, friendly "MyBot". |
| App.Session.EarnBadge | App.tsx:21-25 | The ledger becomes `Award` of the old ledger and keeps the initial badges in order. |
| App.Session.Go | App.tsx:30-36 | A page callback moves to the page `Navigate` gives. A callback that is not on screen changes nothing. |
| App.Session.ChangeConfig | App.tsx:34 | The builder's new configuration replaces the shared one. |
| App.Session.PressNext | App.tsx:32 | An enabled "Next" earns the stage's badge in the ledger. The last stage then moves the session to the builder and leaves the lesson unchanged. Any other stage advances the lesson and clears the answer and all four game flags. |

## Left out

- Rendering, CSS class choices, animations, DOM manipulation, scrolling and the injected style tag are not modelled. They are presentation only.
- `services/Service.ts` is not part of this model. Its network call is an opaque reply text passed to `Playground.Chat.DeliverAiReply`; the request it would receive is returned by `Playground.Chat.Submit`.
- The progress bar in `components/Gamification.tsx` and the landing page are not modelled. They are display only.
- Display-only text is dropped: the stage titles and dialogue, the quiz question texts, and the characters' names and colours. A stage keeps only its character, as an enumeration. Badge names and descriptions are kept; badge icons are dropped.
- Randomness is a parameter. Each `sort(() => Math.random() - 0.5)` shuffle is a permutation given by the caller, and the model does not claim any distribution.
- `Date.now()` message and rule ids are parameters. Nothing is claimed about their uniqueness.
- Timers, `await` and React's re-render order are explicit steps. Each delayed callback is a method that runs once, and nothing runs concurrently. The animation-only timeouts are dropped.
- `trim`, `toLowerCase` and `includes` are modelled on ASCII. Whitespace is the space and tab through carriage return, and only A–Z are lowered. Unicode spaces and non-ASCII case mappings are not modelled.
- Playground.Greeting: writes the personality word as `Name(p)` rather than through `split`, to keep the transcript's proofs small. `Playground.PersonalityWord` models the split and proves it equal to `Name(p)`.
- QuizBossBattle.HealthAfter: health is an integer and the damage is `100 / 4` computed exactly. The source divides in floating point, which gives the same 25 for the shipped four-question table.
- The memory game's 800 ms completion timeout is not a step of its own. `MemoryGame.Board.Click` returns the completion condition directly.
- `handleDragOver` in `components/EmotionSortingGallery.tsx` only calls `preventDefault`, so it is not modelled.
