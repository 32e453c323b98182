/**
  The shared vocabulary of the tutorial application: pages, chatbot
  configuration, chat transcript entries, badges and learning stages.
  Values only; the stateful parts live in the component modules.
 */
module Types {

  datatype Option<+T> = None | Some(value: T)

  /** The four top-level pages. */
  datatype Page = LandingPage | LearningPage | BuilderPage | PlaygroundPage

  datatype Personality = Friendly | Funny | Serious

  /** The display string each personality carries as its enum value. */
  function Label(p: Personality): string
  {
    match p
    case Friendly => "😊 Friendly"
    case Funny => "🤪 Funny"
    case Serious => "🤓 Serious"
  }

  /** A user-authored exact-match question/answer pair. */
  datatype Rule = Rule(id: int, question: string, answer: string)

  datatype ChatbotConfig = ChatbotConfig(name: string, personality: Personality, rules: seq<Rule>)

  datatype Sender = User | Bot

  /** How a bot reply was produced; user messages carry no kind. */
  datatype ReplyKind = RuleReply | AiReply

  datatype ChatMessage = ChatMessage(sender: Sender, text: string, kind: Option<ReplyKind>, id: int)

  /** A badge of the ledger (its icon is presentation and is not modelled). */
  datatype Badge = Badge(id: string, name: string, description: string, earned: bool)

  datatype Character = Riya | Chippy | Senti

  /** The mini-games a stage can embed; each has its own completion flag. */
  datatype MiniGame = MemoryMatch | BossBattle | MoodMatch | EmotionSort

  /** The interactive element of a stage: nothing, a quiz, or a mini-game. */
  datatype InteractiveElement = NoElement | QuizElement | GameElement(game: MiniGame)

  /** A stage's quiz: its options and the one that is correct (the question text is display only). */
  datatype Quiz = Quiz(options: seq<string>, correctAnswer: string)

  datatype LearningStage = LearningStage(
    id: int,
    character: Character,
    badge: Option<string>,
    element: InteractiveElement,
    quiz: Option<Quiz>)
}
