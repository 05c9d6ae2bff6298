/** src/components/daily_pull/PhysicalCardSelector.tsx: the search over the
    deck's cards and the modal's selection state. The search is a filter;
    the state is a `Selector` object whose methods update its fields. */
module CardSelector {
  import opened Records
  import Seqs
  import Text

  // ----- The search -----

  /** `field.toLowerCase().includes(term.toLowerCase())`. */
  predicate FieldMatches(field: string, term: string) {
    Text.Includes(Text.ToLower(field), Text.ToLower(term))
  }

  /** The filter's test: the term occurs, ignoring case, in the name, or in
      the suit or the keywords when the card has them (`card.suit?.…` gives
      `undefined` for an absent field, which is falsy). */
  predicate Matches(card: Card, term: string) {
    || FieldMatches(card.name, term)
    || (card.suit.Some? && FieldMatches(card.suit.value, term))
    || (card.keywords.Some? && FieldMatches(card.keywords.value, term))
  }

  /** The search effect: every card for an empty term; otherwise the cards
      that match, in deck order. */
  function Search(cards: seq<Card>, term: string): (r: seq<Card>)
    ensures term == "" ==> r == cards
    ensures term != "" ==> Seqs.Sublist(r, cards)
    ensures term != "" ==> forall c :: c in r <==> c in cards && Matches(c, term)
    ensures term != "" ==> forall c :: multiset(r)[c] == (if Matches(c, term) then multiset(cards)[c] else 0)
  {
    if term == "" then cards
    else
      Seqs.FilterIsSublist(cards, (c: Card) => Matches(c, term));
      Seqs.FilterCount(cards, (c: Card) => Matches(c, term));
      Seqs.Filter(cards, (c: Card) => Matches(c, term))
  }

  /** A card without suit and keywords is found through its name alone. */
  lemma {:induction false} NameOnlyCard(card: Card, cards: seq<Card>, term: string)
    requires card in cards && term != ""
    requires card.suit.None? && card.keywords.None?
    ensures card in Search(cards, term) <==> FieldMatches(card.name, term)
  {
  }

  /** The case of the term does not matter: searching for it or for its
      lower-case form gives the same list. */
  lemma {:induction false} SearchIgnoresCase(cards: seq<Card>, term: string)
    ensures Search(cards, Text.ToLower(term)) == Search(cards, term)
  {
    var lower := Text.ToLower(term);
    Text.ToLowerIdempotent(term);
    if term != "" {
      Seqs.FilterSame(cards, (c: Card) => Matches(c, lower), (c: Card) => Matches(c, term));
    }
  }

  /** Text containing a longer string contains each prefix of it. */
  lemma {:induction false} IncludesPrefix(hay: string, needle: string, prefix: string)
    requires prefix <= needle && Text.Includes(hay, needle)
    ensures Text.Includes(hay, prefix)
  {
    var i :| 0 <= i <= |hay| && needle <= hay[i..];
    assert prefix <= hay[i..];
  }

  /** Typing more characters only narrows the result: a card found for the
      longer term is found for every non-empty prefix of it. */
  lemma {:induction false} TypingNarrows(cards: seq<Card>, shorter: string, longer: string)
    requires shorter != "" && shorter <= longer
    ensures forall c :: c in Search(cards, longer) ==> c in Search(cards, shorter)
  {
    var ls := Text.ToLower(shorter);
    var ll := Text.ToLower(longer);
    assert ls <= ll;
    forall c | c in Search(cards, longer)
      ensures c in Search(cards, shorter)
    {
      if FieldMatches(c.name, longer) {
        IncludesPrefix(Text.ToLower(c.name), ll, ls);
      } else if c.suit.Some? && FieldMatches(c.suit.value, longer) {
        IncludesPrefix(Text.ToLower(c.suit.value), ll, ls);
      } else {
        IncludesPrefix(Text.ToLower(c.keywords.value), ll, ls);
      }
    }
  }

  // ----- The modal's state -----

  class Selector {
    var cards: seq<Card>
    var filteredCards: seq<Card>
    var selectedCard: Option<Card>
    var searchTerm: string
    var saving: bool
    var error: Option<string>

    /** The modal as it opens: no cards yet, nothing selected. */
    constructor()
      ensures cards == [] && filteredCards == [] && selectedCard.None?
      ensures searchTerm == "" && !saving && error.None?
    {
      cards := [];
      filteredCards := [];
      selectedCard := None;
      searchTerm := "";
      saving := false;
      error := None;
    }

    /** The search effect, run when the cards or the term change. */
    method ApplySearch()
      modifies this
      ensures filteredCards == Search(cards, searchTerm)
      ensures cards == old(cards) && selectedCard == old(selectedCard)
      ensures searchTerm == old(searchTerm) && saving == old(saving) && error == old(error)
    {
      if searchTerm == "" {
        filteredCards := cards;
      } else {
        filteredCards := Search(cards, searchTerm);
      }
    }

    /** `resetModal`: the selection, the term and the error are cleared;
        the cards stay. */
    method ResetModal()
      modifies this
      ensures selectedCard.None? && searchTerm == "" && error.None?
      ensures cards == old(cards) && filteredCards == old(filteredCards) && saving == old(saving)
    {
      selectedCard := None;
      searchTerm := "";
      error := None;
    }

    /** `handleSavePull`: without a selected card nothing happens and no
        pull is created (`request` is None). Otherwise a physical pull of
        the selected card is created; on success the modal closes and is
        reset, on failure the error text is shown. Saving ends false. */
    method HandleSavePull(notes: Option<string>, created: Outcome<Pull>)
      returns (request: Option<(nat, PullType, Option<string>)>, closed: bool)
      modifies this
      ensures cards == old(cards) && filteredCards == old(filteredCards)
      ensures old(selectedCard).None? ==>
        && request.None? && !closed
        && selectedCard == old(selectedCard) && searchTerm == old(searchTerm)
        && saving == old(saving) && error == old(error)
      ensures old(selectedCard).Some? ==>
        request == Some((old(selectedCard).value.id, Physical, notes)) && !saving
      ensures old(selectedCard).Some? && created.Done? ==>
        closed && selectedCard.None? && searchTerm == "" && error.None?
      ensures old(selectedCard).Some? && created.Failed? ==>
        && !closed && selectedCard == old(selectedCard) && searchTerm == old(searchTerm)
        && error == Some(ErrorText(created.failure, "Failed to save your pull"))
    {
      if selectedCard.None? {
        return None, false;
      }
      saving := true;
      request := Some((selectedCard.value.id, Physical, notes));
      match created {
        case Done(_) =>
          closed := true;
          ResetModal();
        case Failed(f) =>
          closed := false;
          error := Some(ErrorText(f, "Failed to save your pull"));
      }
      saving := false;
    }
  }
}
