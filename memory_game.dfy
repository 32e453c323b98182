/**
  The emotion memory game: a shuffled deck of sentence and emoji cards, two
  per pair, flipped two at a time; equal pairs stay matched, unequal ones
  are turned back after a delay, and the game completes once every card of
  a non-empty deck is matched.
 */
module MemoryGame {
  import opened Constants
  import opened Lists

  datatype Face = Sentence | Emoji

  datatype Card = Card(id: int, face: Face, content: string, matchId: int, isFlipped: bool, isMatched: bool)

  /** The two face-down cards of pair `p`: the sentence with id 2p−1, the emoji with id 2p. */
  function CardsOf(p: MemoryPair): (c: seq<Card>)
    ensures |c| == 2
    ensures c[0].id == p.id * 2 - 1 && c[1].id == p.id * 2
    ensures c[0].matchId == p.id && c[1].matchId == p.id
  {
    [ Card(p.id * 2 - 1, Sentence, p.sentence, p.id, false, false),
      Card(p.id * 2, Emoji, p.emoji, p.id, false, false) ]
  }

  /** Cards `2k` and `2k + 1` of `deck` are the sentence and the emoji of pair `pairs[k]`. */
  predicate DealtAt(deck: seq<Card>, pairs: seq<MemoryPair>, k: int)
    requires 0 <= k < |pairs| && |deck| == 2 * |pairs|
  {
    deck[2 * k] == CardsOf(pairs[k])[0] && deck[2 * k + 1] == CardsOf(pairs[k])[1]
  }

  /** The unshuffled deck: the pairs' cards in pair order, sentence before emoji. */
  function Deck(pairs: seq<MemoryPair>): (deck: seq<Card>)
    ensures |deck| == 2 * |pairs|
    ensures forall k :: 0 <= k < |pairs| ==> DealtAt(deck, pairs, k)
    decreases |pairs|
  {
    if pairs == [] then []
    else
      var init := pairs[..|pairs| - 1];
      var d := Deck(init) + CardsOf(pairs[|pairs| - 1]);
      assert forall k :: 0 <= k < |init| ==> DealtAt(Deck(init), init, k) && pairs[k] == init[k];
      d
  }

  /**
    The deck is all face down and unmatched, every card's id is 2m−1 or 2m
    for its pair id m, and each card's pair is one of the pairs.
   */
  lemma DeckShape(pairs: seq<MemoryPair>)
    ensures forall i :: 0 <= i < |Deck(pairs)| ==>
              var c := Deck(pairs)[i];
              && !c.isFlipped && !c.isMatched
              && c.matchId == pairs[i / 2].id
              && c.id == 2 * c.matchId - 1 + i % 2
  {
    var deck := Deck(pairs);
    forall i | 0 <= i < |deck|
      ensures !deck[i].isFlipped && !deck[i].isMatched
      ensures deck[i].matchId == pairs[i / 2].id
      ensures deck[i].id == 2 * deck[i].matchId - 1 + i % 2
    {
      var k := i / 2;
      assert DealtAt(deck, pairs, k);
      assert i == 2 * k || i == 2 * k + 1;
    }
  }

  /** With distinct pair ids, the deck's card ids are distinct. */
  lemma DeckIdsDistinct(pairs: seq<MemoryPair>)
    requires forall a, b :: 0 <= a < b < |pairs| ==> pairs[a].id != pairs[b].id
    ensures forall i, j :: 0 <= i < j < |Deck(pairs)| ==> Deck(pairs)[i].id != Deck(pairs)[j].id
  {
    var deck := Deck(pairs);
    DeckShape(pairs);
    forall i, j | 0 <= i < j < |deck| ensures deck[i].id != deck[j].id {
      if i / 2 == j / 2 {
        assert i % 2 == 0 && j % 2 == 1;
      } else {
        assert pairs[i / 2].id != pairs[j / 2].id;
      }
    }
  }

  /** The deck-building loop: one `push` of each card, pair by pair. */
  method BuildDeck(pairs: seq<MemoryPair>) returns (deck: seq<Card>)
    ensures deck == Deck(pairs)
  {
    deck := [];
    var i := 0;
    while i < |pairs|
      invariant 0 <= i <= |pairs|
      invariant deck == Deck(pairs[..i])
    {
      var p := pairs[i];
      deck := deck + [Card(p.id * 2 - 1, Sentence, p.sentence, p.id, false, false)];
      deck := deck + [Card(p.id * 2, Emoji, p.emoji, p.id, false, false)];
      assert pairs[..i + 1][..i] == pairs[..i];
      i := i + 1;
    }
    assert pairs[..i] == pairs;
  }

  /** Card `index` turned face up; every other card as it was. */
  function FlipAt(cards: seq<Card>, index: nat): (r: seq<Card>)
    requires index < |cards|
    ensures |r| == |cards| && r[index].isFlipped
    ensures r[index].(isFlipped := cards[index].isFlipped) == cards[index]
    ensures forall i :: 0 <= i < |cards| && i != index ==> r[i] == cards[i]
  {
    cards[index := cards[index].(isFlipped := true)]
  }

  /** Every card whose pair is `m` marked matched; nothing else changes. */
  function MarkMatched(cards: seq<Card>, m: int): (r: seq<Card>)
    ensures |r| == |cards|
    ensures forall i :: 0 <= i < |cards| ==> (r[i].isMatched <==> cards[i].isMatched || cards[i].matchId == m)
    ensures forall i :: 0 <= i < |cards| ==> r[i].(isMatched := cards[i].isMatched) == cards[i]
  {
    seq(|cards|, i requires 0 <= i < |cards| =>
      if cards[i].matchId == m then cards[i].(isMatched := true) else cards[i])
  }

  /** Cards `a` and `b` turned face down again; every other card as it was. */
  function Unflip(cards: seq<Card>, a: nat, b: nat): (r: seq<Card>)
    ensures |r| == |cards|
    ensures forall i :: 0 <= i < |cards| && (i == a || i == b) ==> r[i] == cards[i].(isFlipped := false)
    ensures forall i :: 0 <= i < |cards| && i != a && i != b ==> r[i] == cards[i]
  {
    seq(|cards|, i requires 0 <= i < |cards| =>
      if i == a || i == b then cards[i].(isFlipped := false) else cards[i])
  }

  /** The completion condition: a non-empty deck whose cards are all matched. */
  predicate AllMatched(cards: seq<Card>)
  {
    |cards| > 0 && forall i :: 0 <= i < |cards| ==> cards[i].isMatched
  }

  /** A freshly dealt deck of at least one pair is not complete. */
  lemma DealtDeckNotComplete(pairs: seq<MemoryPair>, perm: seq<nat>)
    requires |pairs| > 0 && IsPermutation(perm, 2 * |pairs|)
    ensures !AllMatched(Permute(Deck(pairs), perm))
  {
    DeckShape(pairs);
    assert !Deck(pairs)[perm[0]].isMatched;
  }

  class Board {
    var cards: seq<Card>
    var flipped: seq<nat>
    var isChecking: bool

    /**
      At most two cards are turned over, each index names a distinct face-up
      card, and a pair is under check exactly when two are turned over.
     */
    ghost predicate Valid()
      reads this
    {
      && |flipped| <= 2
      && (forall k :: 0 <= k < |flipped| ==> flipped[k] < |cards| && cards[flipped[k]].isFlipped)
      && (|flipped| == 2 ==> flipped[0] != flipped[1])
      && (isChecking <==> |flipped| == 2)
    }

    /** Before the deck is dealt there are no cards. */
    constructor ()
      ensures Valid()
      ensures cards == [] && flipped == [] && !isChecking
    {
      cards := [];
      flipped := [];
      isChecking := false;
    }

    /** The mount effect: deals the memory pairs' deck in the order `perm`. */
    method Deal(perm: seq<nat>)
      requires IsPermutation(perm, 2 * |MemoryGamePairs()|)
      modifies this
      ensures Valid()
      ensures cards == Permute(Deck(MemoryGamePairs()), perm)
      ensures flipped == [] && !isChecking
    {
      var deck := BuildDeck(MemoryGamePairs());
      cards := Permute(deck, perm);
      flipped := [];
      isChecking := false;
    }

    /**
      `handleCardClick` followed by the pair-check effect. A click while
      checking, on a face-up card, or with two cards turned over is ignored.
      Otherwise the card is turned over and recorded; when it is the second,
      an equal pair is marked matched and cleared at once, and an unequal
      pair stays up under check until `ResolveMismatch`. `done` is the
      completion condition of the resulting deck.
     */
    method Click(index: nat) returns (done: bool)
      requires Valid() && index < |cards|
      modifies this
      ensures Valid()
      ensures old(isChecking) || old(cards[index].isFlipped) || old(|flipped|) == 2 ==>
                unchanged(this) && done == AllMatched(cards)
      ensures !(old(isChecking) || old(cards[index].isFlipped) || old(|flipped|) == 2) ==>
                var up := FlipAt(old(cards), index);
                var pair := old(flipped) + [index];
                if |pair| < 2 then cards == up && flipped == pair && !isChecking
                else if up[pair[0]].matchId == up[pair[1]].matchId then
                  cards == MarkMatched(up, up[pair[0]].matchId) && flipped == [] && !isChecking
                else
                  cards == up && flipped == pair && isChecking
      ensures forall i :: 0 <= i < |old(cards)| && old(cards[i].isMatched) ==> cards[i].isMatched
      ensures done == AllMatched(cards)
    {
      if isChecking || cards[index].isFlipped || |flipped| == 2 {
        return AllMatched(cards);
      }
      cards := FlipAt(cards, index);
      flipped := flipped + [index];
      if |flipped| == 2 {
        var first, second := flipped[0], flipped[1];
        if cards[first].matchId == cards[second].matchId {
          cards := MarkMatched(cards, cards[first].matchId);
          flipped := [];
          isChecking := false;
        } else {
          isChecking := true;
        }
      }
      done := AllMatched(cards);
    }

    /** The delayed turn-back of an unequal pair: only those two cards go face down. */
    method ResolveMismatch()
      requires Valid() && isChecking
      modifies this
      ensures Valid()
      ensures cards == Unflip(old(cards), old(flipped[0]), old(flipped[1]))
      ensures flipped == [] && !isChecking
      ensures forall i :: 0 <= i < |old(cards)| && old(cards[i].isMatched) ==> cards[i].isMatched
    {
      cards := Unflip(cards, flipped[0], flipped[1]);
      flipped := [];
      isChecking := false;
    }
  }
}
