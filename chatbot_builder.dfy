/**
  The rule editor. Adding, removing and re-personalising build a new
  configuration from the old one; the draft rule being typed is the
  component's own state.
 */
module ChatbotBuilder {
  import opened Types
  import opened Text

  /** The configuration's rules without those whose id is `id`, in their order. */
  function WithoutRule(rules: seq<Rule>, id: int): (r: seq<Rule>)
    ensures |r| <= |rules|
    ensures forall x :: x in r <==> x in rules && x.id != id
    ensures (forall i :: 0 <= i < |rules| ==> rules[i].id != id) ==> r == rules
  {
    if rules == [] then []
    else if rules[0].id == id then WithoutRule(rules[1..], id)
    else [rules[0]] + WithoutRule(rules[1..], id)
  }

  /** Removing distributes over concatenation, so the kept rules stay in order. */
  lemma {:induction false} WithoutRuleAppend(a: seq<Rule>, b: seq<Rule>, id: int)
    ensures WithoutRule(a + b, id) == WithoutRule(a, id) + WithoutRule(b, id)
  {
    if a == [] {
      assert a + b == b;
    } else {
      assert (a + b)[0] == a[0];
      assert (a + b)[1..] == a[1..] + b;
      WithoutRuleAppend(a[1..], b, id);
    }
  }

  /** Removing the same id twice is the same as removing it once. */
  lemma {:induction false} WithoutRuleIdempotent(rules: seq<Rule>, id: int)
    ensures WithoutRule(WithoutRule(rules, id), id) == WithoutRule(rules, id)
  {
    var r := WithoutRule(rules, id);
    forall i | 0 <= i < |r| ensures r[i].id != id {
      assert r[i] in r;
    }
  }

  /**
    `handleAddRule`: nothing happens (no configuration change) when either
    field is blank after trimming; otherwise one rule carrying the untrimmed
    draft text and `id` is appended and everything else is kept.
   */
  function AddRule(config: ChatbotConfig, question: string, answer: string, id: int): (r: Option<ChatbotConfig>)
    ensures r.None? <==> IsBlank(question) || IsBlank(answer)
    ensures r.Some? ==> r.value.name == config.name && r.value.personality == config.personality
    ensures r.Some? ==> |r.value.rules| == |config.rules| + 1
    ensures r.Some? ==> r.value.rules[..|config.rules|] == config.rules
    ensures r.Some? ==> r.value.rules[|config.rules|] == Rule(id, question, answer)
  {
    if !IsBlank(question) && !IsBlank(answer) then
      Some(config.(rules := config.rules + [Rule(id, question, answer)]))
    else
      None
  }

  /**
    `handleRemoveRule`: drops every rule with this id, keeps the rest in
    order, and keeps the name and personality; an absent id changes nothing.
   */
  function RemoveRule(config: ChatbotConfig, id: int): (r: ChatbotConfig)
    ensures r.name == config.name && r.personality == config.personality
    ensures forall x :: x in r.rules <==> x in config.rules && x.id != id
    ensures (forall i :: 0 <= i < |config.rules| ==> config.rules[i].id != id) ==> r == config
  {
    config.(rules := WithoutRule(config.rules, id))
  }

  /** `handlePersonalityChange`: replaces the personality and nothing else. */
  function ChangePersonality(config: ChatbotConfig, p: Personality): (r: ChatbotConfig)
    ensures r.personality == p
    ensures r.name == config.name && r.rules == config.rules
  {
    config.(personality := p)
  }

  /** Removing a rule that was just added with a fresh id restores the configuration. */
  lemma AddThenRemove(config: ChatbotConfig, question: string, answer: string, id: int)
    requires forall i :: 0 <= i < |config.rules| ==> config.rules[i].id != id
    requires !IsBlank(question) && !IsBlank(answer)
    ensures RemoveRule(AddRule(config, question, answer, id).value, id) == config
  {
    var rule := Rule(id, question, answer);
    assert AddRule(config, question, answer, id) == Some(config.(rules := config.rules + [rule]));
    WithoutRuleAppend(config.rules, [rule], id);
    assert [rule][1..] == [];
    assert WithoutRule([rule], id) == [];
    assert WithoutRule(config.rules, id) == config.rules;
  }

  /** The component's draft rule, with the two text fields the learner types into. */
  class Builder {
    var question: string
    var answer: string

    constructor ()
      ensures question == "" && answer == ""
    {
      question := "";
      answer := "";
    }

    method EditQuestion(text: string)
      modifies this`question
      ensures question == text
    {
      question := text;
    }

    method EditAnswer(text: string)
      modifies this`answer
      ensures answer == text
    {
      answer := text;
    }

    /**
      Submitting the form: computes the new configuration (none when a field
      is blank) and clears the draft only when a rule was added.
     */
    method Add(config: ChatbotConfig, id: int) returns (change: Option<ChatbotConfig>)
      modifies this
      ensures change == AddRule(config, old(question), old(answer), id)
      ensures change.Some? ==> question == "" && answer == ""
      ensures change.None? ==> question == old(question) && answer == old(answer)
    {
      change := AddRule(config, question, answer, id);
      if change.Some? {
        question, answer := "", "";
      }
    }
  }
}
