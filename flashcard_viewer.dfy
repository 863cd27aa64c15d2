/** The flashcard component: a bounded card index, a flip flag that resets
    whenever the index moves, and two id lists (known / to review) that
    marking the current card keeps apart. */
module FlashcardView {
  import opened Text
  import opened Artifacts

  /** `ids.filter(x => x !== id)`: every copy of `id` goes, every other id
      keeps its count and its place in the order (the lists' lengths are the
      "Known" and "To Review" figures). */
  function Without(ids: seq<int>, id: int): (r: seq<int>)
    ensures id !in r
    ensures forall x :: x in r <==> x in ids && x != id
    ensures forall x :: x != id ==> multiset(r)[x] == multiset(ids)[x]
    ensures SubsequenceOf(r, ids)
    ensures |r| <= |ids|
  {
    Filter(ids, x => x != id)
  }

  /** No id is in both lists. */
  predicate Disjoint(known: seq<int>, unknown: seq<int>)
  {
    forall x :: x in known ==> x !in unknown
  }

  /** Marking a card known or to-review keeps the two lists apart. */
  lemma MarkKeepsDisjoint(known: seq<int>, unknown: seq<int>, id: int)
    requires Disjoint(known, unknown)
    ensures Disjoint(known + [id], Without(unknown, id))
    ensures Disjoint(Without(known, id), unknown + [id])
  {
  }

  class FlashcardViewer {
    const cards: seq<Flashcard>
    var currentIndex: nat
    var isFlipped: bool
    var knownCards: seq<int>
    var unknownCards: seq<int>

    ghost predicate Valid()
      reads this
    {
      (|cards| == 0 ==> currentIndex == 0) &&
      (|cards| > 0 ==> currentIndex < |cards|) &&
      Disjoint(knownCards, unknownCards)
    }

    constructor (cards: seq<Flashcard>)
      ensures Valid() && this.cards == cards
      ensures currentIndex == 0 && !isFlipped && knownCards == [] && unknownCards == []
    {
      this.cards := cards;
      currentIndex := 0;
      isFlipped := false;
      knownCards := [];
      unknownCards := [];
    }

    /** Moves forward unless on the last card, showing the question side. */
    method Next()
      requires Valid()
      modifies this`currentIndex, this`isFlipped
      ensures Valid()
      ensures old(currentIndex) < |cards| - 1 ==> currentIndex == old(currentIndex) + 1 && !isFlipped
      ensures old(currentIndex) >= |cards| - 1 ==> currentIndex == old(currentIndex) && isFlipped == old(isFlipped)
    {
      if currentIndex < |cards| - 1 {
        currentIndex := currentIndex + 1;
        isFlipped := false;
      }
    }

    /** Moves back unless on the first card, showing the question side. */
    method Previous()
      requires Valid()
      modifies this`currentIndex, this`isFlipped
      ensures Valid()
      ensures old(currentIndex) > 0 ==> currentIndex == old(currentIndex) - 1 && !isFlipped
      ensures old(currentIndex) == 0 ==> currentIndex == 0 && isFlipped == old(isFlipped)
    {
      if currentIndex > 0 {
        currentIndex := currentIndex - 1;
        isFlipped := false;
      }
    }

    method Flip()
      requires Valid()
      modifies this`isFlipped
      ensures Valid() && isFlipped == !old(isFlipped)
    {
      isFlipped := !isFlipped;
    }

    /** "Know it": the current id is appended to the known list (repeats
      included), every copy of it leaves the review list, then Next. */
    method MarkAsKnown()
      requires Valid() && |cards| > 0
      modifies this
      ensures Valid()
      ensures knownCards == old(knownCards) + [cards[old(currentIndex)].id]
      ensures unknownCards == Without(old(unknownCards), cards[old(currentIndex)].id)
      ensures old(currentIndex) < |cards| - 1 ==> currentIndex == old(currentIndex) + 1 && !isFlipped
      ensures old(currentIndex) == |cards| - 1 ==> currentIndex == old(currentIndex) && isFlipped == old(isFlipped)
    {
      var currentCardId := cards[currentIndex].id;
      MarkKeepsDisjoint(knownCards, unknownCards, currentCardId);
      knownCards := knownCards + [currentCardId];
      unknownCards := Without(unknownCards, currentCardId);
      Next();
    }

    /** "Don't know": the mirror image of MarkAsKnown. */
    method MarkAsUnknown()
      requires Valid() && |cards| > 0
      modifies this
      ensures Valid()
      ensures unknownCards == old(unknownCards) + [cards[old(currentIndex)].id]
      ensures knownCards == Without(old(knownCards), cards[old(currentIndex)].id)
      ensures old(currentIndex) < |cards| - 1 ==> currentIndex == old(currentIndex) + 1 && !isFlipped
      ensures old(currentIndex) == |cards| - 1 ==> currentIndex == old(currentIndex) && isFlipped == old(isFlipped)
    {
      var currentCardId := cards[currentIndex].id;
      MarkKeepsDisjoint(knownCards, unknownCards, currentCardId);
      unknownCards := unknownCards + [currentCardId];
      knownCards := Without(knownCards, currentCardId);
      Next();
    }
  }

  /** Marking the last card known twice lists its id twice: the "Known" count
      is the list length, repeats included. */
  method MarkLastCardTwice(card: Flashcard) returns (knownCount: nat)
    ensures knownCount == 2
  {
    var viewer := new FlashcardViewer([card]);
    viewer.MarkAsKnown();
    viewer.MarkAsKnown();
    knownCount := |viewer.knownCards|;
  }
}
