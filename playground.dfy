/**
  The chat playground: a transcript that starts with a bot greeting and
  grows by one user message and one bot reply per accepted submit. A reply
  comes from the first rule whose question matches the input, or else from
  the AI service, which is an opaque input here.
 */
module Playground {
  import opened Types
  import opened Text
  import opened Lists

  /**
    `s.toLowerCase().trim()`, the form in which questions and inputs are
    compared: no capital letter, no whitespace at either end, and empty
    exactly for whitespace-only text.
   */
  function Normalize(s: string): (r: string)
    ensures |r| <= |s|
    ensures forall i :: 0 <= i < |r| ==> !('A' <= r[i] <= 'Z')
    ensures r == [] || (!IsSpace(r[0]) && !IsSpace(r[|r| - 1]))
    ensures r == [] <==> AllSpace(s)
  {
    var t := ToLower(s);
    TrimKeepsLower(t);
    assert AllSpace(t) <==> AllSpace(s);
    Trim(t)
  }

  /** Trimming text without capitals leaves none: the trimmed text is a slice of it. */
  lemma TrimKeepsLower(t: string)
    requires forall i :: 0 <= i < |t| ==> !('A' <= t[i] <= 'Z')
    ensures forall i :: 0 <= i < |Trim(t)| ==> !('A' <= Trim(t)[i] <= 'Z')
  {
    TrimIsPadded(t);
    var r := Trim(t);
    var k :| PaddedAt(t, r, k);
    assert forall i :: 0 <= i < |r| ==> r[i] == t[k + i];
  }

  /** Normalizing twice is normalizing once: the compared form is a fixed point. */
  lemma {:induction false} NormalizeIdempotent(s: string)
    ensures Normalize(Normalize(s)) == Normalize(s)
  {
    var r := Normalize(s);
    assert ToLower(r) == r;
    assert TrimStart(r) == r;
    assert TrimEnd(r) == r;
  }

  /** Rule `rule` answers `input` when both read the same once lowercased and trimmed. */
  predicate Matches(rule: Rule, input: string)
  {
    Normalize(rule.question) == Normalize(input)
  }

  /** Each rule's question in compared form, in list order. */
  function Keys(rules: seq<Rule>): (keys: seq<string>)
    ensures |keys| == |rules|
    ensures forall i :: 0 <= i < |rules| ==> keys[i] == Normalize(rules[i].question)
  {
    seq(|rules|, i requires 0 <= i < |rules| => Normalize(rules[i].question))
  }

  /** Appending rules appends their keys: the keys of the earlier rules keep their positions. */
  lemma KeysAppend(rules: seq<Rule>, more: seq<Rule>)
    ensures Keys(rules + more) == Keys(rules) + Keys(more)
  {
  }

  /** `config.rules.find(...)`: the first matching rule in list order, if any. */
  function FindRule(rules: seq<Rule>, input: string): (r: Option<Rule>)
    ensures r.None? <==> forall j :: 0 <= j < |rules| ==> !Matches(rules[j], input)
    ensures r.Some? ==> exists k :: 0 <= k < |rules| && rules[k] == r.value && Matches(rules[k], input)
                                     && forall j :: 0 <= j < k ==> !Matches(rules[j], input)
  {
    var k := FirstIndex(Keys(rules), Normalize(input));
    if k < |rules| then Some(rules[k]) else None
  }

  /** Adding rules after the list never changes an answer the list already gives. */
  lemma FindRuleExtend(rules: seq<Rule>, more: seq<Rule>, input: string)
    requires FindRule(rules, input).Some?
    ensures FindRule(rules + more, input) == FindRule(rules, input)
  {
    KeysAppend(rules, more);
    FirstIndexAppend(Keys(rules), Keys(more), Normalize(input));
  }

  /**
    The `joke_master` condition, checked only when no rule matched (see
    `Resolve`): the personality's label mentions "Funny" and the lowercased
    input mentions "joke" or "funny".
   */
  predicate EarnsJokeBadge(p: Personality, input: string)
  {
    Contains(Label(p), "Funny")
    && (Contains(ToLower(input), "joke") || Contains(ToLower(input), "funny"))
  }

  /** `sub` does not occur in `s` when no position of `s` starts with its first two characters. */
  lemma NoOccurrence(s: string, sub: string)
    requires |sub| >= 2
    requires forall i :: 0 <= i < |s| - 1 ==> s[i] != sub[0] || s[i + 1] != sub[1]
    ensures !Contains(s, sub)
  {
    forall i | 0 <= i <= |s| - |sub| ensures !OccursAt(s, sub, i) {
      assert s[i..i + |sub|][0] == s[i] && s[i..i + |sub|][1] == s[i + 1];
    }
  }

  /** Only the funny personality's label mentions "Funny". */
  lemma FunnyLabel(p: Personality)
    ensures Contains(Label(p), "Funny") <==> p == Funny
  {
    var s := Label(p);
    if p == Funny {
      assert OccursAt(s, "Funny", 2);
    } else {
      NoOccurrence(s, "Funny");
    }
  }

  /** Hence the badge needs the funny personality and a lowercased "joke" or "funny" in the input. */
  lemma JokeBadgeCondition(p: Personality, input: string)
    ensures EarnsJokeBadge(p, input) <==>
              p == Funny && exists i :: OccursAt(ToLower(input), "joke", i) || OccursAt(ToLower(input), "funny", i)
  {
    FunnyLabel(p);
  }

  /** The personality's word, as the greeting shows it. */
  function Name(p: Personality): string
  {
    match p
    case Friendly => "Friendly"
    case Funny => "Funny"
    case Serious => "Serious"
  }

  /** A one-character prefix, a space and a space-free word split into those two parts. */
  lemma SplitAfterFirst(s: string, w: string)
    requires |s| == |w| + 2 && s[0] != ' ' && s[1] == ' ' && s[2..] == w && ' ' !in w
    ensures Split(s, ' ') == [s[..1], w]
  {
    assert FirstIndex(s[1..], ' ') == 0;
    assert FirstIndex(s, ' ') == 1;
    assert FirstIndex(w, ' ') == |w|;
  }

  /**
    `personality.split(' ')[1]`: the part of the label after its first
    space. Every label has one, and it is the personality's name, so the
    text "undefined" that a missing part would give never appears.
   */
  function PersonalityWord(p: Personality): (w: string)
    ensures w == Name(p)
  {
    var s := Label(p);
    assert s[2..] == Name(p);
    SplitAfterFirst(s, Name(p));
    var parts := Split(s, ' ');
    if |parts| > 1 then parts[1] else "undefined"
  }

  /**
    The opening bot message. Its word is `personality.split(' ')[1]`,
    written here as `Name(p)`, which the contract of `PersonalityWord` shows
    to be the same text.
   */
  function Greeting(p: Personality): string
  {
    "Hi! I'm ready to chat. I have a " + Name(p) + " personality!"
  }

  datatype Role = UserRole | ModelRole

  /** One entry of the history handed to the AI service. */
  datatype Turn = Turn(role: Role, text: string)

  /** The transcript as AI history: one turn per message, user to user, bot to model. */
  function History(messages: seq<ChatMessage>): (h: seq<Turn>)
    ensures |h| == |messages|
    ensures forall i :: 0 <= i < |h| ==> h[i].text == messages[i].text
    ensures forall i :: 0 <= i < |h| ==> (h[i].role == UserRole <==> messages[i].sender == User)
  {
    seq(|messages|, i requires 0 <= i < |messages| =>
      Turn(if messages[i].sender == User then UserRole else ModelRole, messages[i].text))
  }

  /** Mapping a longer transcript extends the history of the shorter one. */
  lemma HistoryAppend(messages: seq<ChatMessage>, more: seq<ChatMessage>)
    ensures History(messages + more) == History(messages) + History(more)
  {
    var l, r := History(messages + more), History(messages) + History(more);
    assert |l| == |r|;
    forall i | 0 <= i < |l| ensures l[i] == r[i] {
      if i < |messages| {
        assert (messages + more)[i] == messages[i];
      } else {
        assert (messages + more)[i] == more[i - |messages|];
      }
    }
  }

  /** What the AI service is asked: the untrimmed input, the personality and the prior history. */
  datatype AiRequest = AiRequest(message: string, personality: Personality, history: seq<Turn>)

  /** The reply being waited for after an accepted submit. */
  datatype Pending = RuleAnswer(answer: string) | AiAnswer

  /** What an accepted submit decides: the awaited reply, a badge to award and the AI request. */
  datatype Outcome = Outcome(pending: Pending, award: Option<string>, request: Option<AiRequest>)

  /**
    The reply decision of `handleSubmit` for input `input` against transcript
    `prior` (the messages before the new one): the first matching rule's
    answer, or else an AI request, with `joke_master` awarded only on the AI
    path and only under the joke condition.
   */
  function Resolve(config: ChatbotConfig, input: string, prior: seq<ChatMessage>): (o: Outcome)
    ensures o.pending.RuleAnswer? <==> exists j :: 0 <= j < |config.rules| && Matches(config.rules[j], input)
    ensures o.pending.RuleAnswer? ==>
              exists k :: 0 <= k < |config.rules| && o.pending.answer == config.rules[k].answer
                          && Matches(config.rules[k], input)
                          && forall j :: 0 <= j < k ==> !Matches(config.rules[j], input)
    ensures o.pending.RuleAnswer? ==> o.award == None && o.request == None
    ensures o.pending == AiAnswer ==>
              o.request == Some(AiRequest(input, config.personality, History(prior)))
    ensures o.award.Some? <==> o.pending == AiAnswer && EarnsJokeBadge(config.personality, input)
    ensures o.award.Some? ==> o.award.value == "joke_master"
  {
    match FindRule(config.rules, input)
    case Some(r) => Outcome(RuleAnswer(r.answer), None, None)
    case None =>
      Outcome(AiAnswer,
              if EarnsJokeBadge(config.personality, input) then Some("joke_master") else None,
              Some(AiRequest(input, config.personality, History(prior))))
  }

  /** Starts with the bot and alternates senders from one message to the next. */
  predicate Alternates(messages: seq<ChatMessage>)
  {
    && |messages| >= 1
    && messages[0].sender == Bot
    && (forall i :: 0 < i < |messages| ==> messages[i].sender != messages[i - 1].sender)
  }

  /** Appending a message from the other sender keeps the transcript alternating. */
  lemma AlternatesAppend(messages: seq<ChatMessage>, m: ChatMessage)
    requires Alternates(messages) && m.sender != messages[|messages| - 1].sender
    ensures Alternates(messages + [m])
    ensures (messages + [m])[|messages|] == m
  {
  }

  class Chat {
    var messages: seq<ChatMessage>
    var input: string
    var isLoading: bool
    var pending: Option<Pending>

    /**
      The transcript alternates bot and user messages starting with the
      greeting, and a reply is awaited (loading) exactly when the last
      message is the user's.
     */
    ghost predicate Valid()
      reads this
    {
      && Alternates(messages)
      && (isLoading <==> messages[|messages| - 1].sender == User)
      && (isLoading <==> pending.Some?)
    }

    /** A fresh playground: the greeting alone, an empty input, nothing loading. */
    constructor (p: Personality, id: int)
      ensures Valid()
      ensures messages == [ChatMessage(Bot, Greeting(p), None, id)]
      ensures input == "" && !isLoading && pending == None
    {
      messages := [ChatMessage(Bot, Greeting(p), None, id)];
      input := "";
      isLoading := false;
      pending := None;
    }

    method SetInput(text: string)
      modifies this`input
      ensures input == text
    {
      input := text;
    }

    /**
      `handleSubmit`. A blank input or a pending reply leaves everything as
      it was. Otherwise the untrimmed input is appended as a user message,
      the input is cleared and loading starts; the reply, the badge and the
      AI request are those `Resolve` decides against the transcript as it
      was before the new message.
     */
    method Submit(config: ChatbotConfig, userId: int)
      returns (accepted: bool, award: Option<string>, request: Option<AiRequest>)
      requires Valid()
      modifies this
      ensures Valid()
      ensures accepted <==> !IsBlank(old(input)) && !old(isLoading)
      ensures !accepted ==> unchanged(this) && award == None && request == None
      ensures accepted ==> messages == old(messages) + [ChatMessage(User, old(input), None, userId)]
      ensures accepted ==> input == "" && isLoading
      ensures accepted ==>
                var o := Resolve(config, old(input), old(messages));
                pending == Some(o.pending) && award == o.award && request == o.request
    {
      if IsBlank(input) || isLoading {
        return false, None, None;
      }
      accepted := true;
      var o := Resolve(config, input, messages);
      Accept(userId, o.pending);
      award, request := o.award, o.request;
    }

    /** The state change of an accepted submit, once the reply to wait for is known. */
    method Accept(userId: int, reply: Pending)
      requires Valid() && !isLoading
      modifies this
      ensures Valid()
      ensures messages == old(messages) + [ChatMessage(User, old(input), None, userId)]
      ensures input == "" && isLoading && pending == Some(reply)
    {
      AlternatesAppend(messages, ChatMessage(User, input, None, userId));
      messages := messages + [ChatMessage(User, input, None, userId)];
      input := "";
      isLoading := true;
      pending := Some(reply);
    }

    /** The delayed rule reply: the rule's answer, tagged as rule-based; loading ends. */
    method DeliverRuleReply(id: int)
      requires Valid() && pending.Some? && pending.value.RuleAnswer?
      modifies this`messages, this`isLoading, this`pending
      ensures Valid()
      ensures messages == old(messages) + [ChatMessage(Bot, old(pending).value.answer, Some(RuleReply), id)]
      ensures !isLoading && pending == None
    {
      AlternatesAppend(messages, ChatMessage(Bot, pending.value.answer, Some(RuleReply), id));
      messages := messages + [ChatMessage(Bot, pending.value.answer, Some(RuleReply), id)];
      isLoading := false;
      pending := None;
    }

    /** The awaited AI reply `text`, tagged as AI-powered; loading ends after it is appended. */
    method DeliverAiReply(id: int, text: string)
      requires Valid() && pending == Some(AiAnswer)
      modifies this`messages, this`isLoading, this`pending
      ensures Valid()
      ensures messages == old(messages) + [ChatMessage(Bot, text, Some(AiReply), id)]
      ensures !isLoading && pending == None
    {
      AlternatesAppend(messages, ChatMessage(Bot, text, Some(AiReply), id));
      messages := messages + [ChatMessage(Bot, text, Some(AiReply), id)];
      isLoading := false;
      pending := None;
    }
  }
}
