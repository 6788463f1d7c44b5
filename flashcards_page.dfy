/**
 * The flashcard carousel of src/pages/Flashcards.tsx: a current card index
 * that moves forwards and backwards modulo the number of cards, a flip flag,
 * and the selected summary whose flashcards can be deleted.
 */
module FlashcardsPage {
  import opened Replies

  /** The shape of src/types/flashcards.ts. */
  datatype Flashcard = Flashcard(
    id: string,
    userId: string,
    summaryId: string,
    question: string,
    answer: string,
    category: string,
    createdAt: string)

  /** The index `nextCard` moves to among n cards. */
  function NextIndex(i: nat, n: nat): (r: nat)
    requires n > 0
    ensures r < n
  {
    (i + 1) % n
  }

  /** The index `prevCard` moves to among n cards. */
  function PrevIndex(i: nat, n: nat): (r: nat)
    requires n > 0
    ensures r < n
  {
    (i - 1 + n) % n
  }

  /** From a card in range, Next goes one forward, wrapping from the last card to the first. */
  lemma NextIndexCases(i: nat, n: nat)
    requires i < n
    ensures NextIndex(i, n) == if i + 1 < n then i + 1 else 0
  {
    if i + 1 == n {
      assert (i + 1) % n == n % n == 0;
    }
  }

  /** From a card in range, Previous goes one back, wrapping from the first card to the last. */
  lemma PrevIndexCases(i: nat, n: nat)
    requires i < n
    ensures PrevIndex(i, n) == if i > 0 then i - 1 else n - 1
  {
    if i > 0 {
      assert i - 1 + n == (i - 1) + 1 * n;
      assert (i - 1 + n) % n == i - 1;
    }
  }

  /** Previous undoes Next. */
  lemma PrevAfterNext(i: nat, n: nat)
    requires i < n
    ensures PrevIndex(NextIndex(i, n), n) == i
  {
    NextIndexCases(i, n);
    PrevIndexCases(NextIndex(i, n), n);
  }

  /** Next undoes Previous. */
  lemma NextAfterPrev(i: nat, n: nat)
    requires i < n
    ensures NextIndex(PrevIndex(i, n), n) == i
  {
    PrevIndexCases(i, n);
    NextIndexCases(PrevIndex(i, n), n);
  }

  /** The index after pressing Next k times. */
  function Forward(i: nat, n: nat, k: nat): (r: nat)
    requires i < n
    ensures r < n
  {
    if k == 0 then i else NextIndex(Forward(i, n, k - 1), n)
  }

  lemma {:induction false} ForwardWithoutWrap(i: nat, n: nat, k: nat)
    requires i + k < n
    ensures Forward(i, n, k) == i + k
  {
    if k > 0 {
      ForwardWithoutWrap(i, n, k - 1);
      NextIndexCases(i + k - 1, n);
    }
  }

  lemma {:induction false} ForwardSplit(i: nat, n: nat, a: nat, b: nat)
    requires i < n
    ensures Forward(i, n, a + b) == Forward(Forward(i, n, a), n, b)
    decreases b
  {
    if b > 0 {
      ForwardSplit(i, n, a, b - 1);
    }
  }

  /** Pressing Next once per card comes back to the starting card. */
  lemma FullCycle(i: nat, n: nat)
    requires i < n
    ensures Forward(i, n, n) == i
  {
    ForwardWithoutWrap(i, n, n - 1 - i);
    NextIndexCases(n - 1, n);
    assert Forward(i, n, n - i) == 0;
    ForwardSplit(i, n, n - i, i);
    ForwardWithoutWrap(0, n, i);
  }

  /** The Previous button: disabled on the first card or before the flashcards arrive. */
  predicate PrevDisabled(currentCard: nat, flashcards: Option<seq<Flashcard>>)
  {
    currentCard == 0 || flashcards.None?
  }

  /** The Next button: disabled before the flashcards arrive or on the last card. */
  predicate NextDisabled(currentCard: nat, flashcards: Option<seq<Flashcard>>)
  {
    flashcards.None? || currentCard == |flashcards.value| - 1
  }

  /** Through the enabled buttons the carousel never wraps around: Next
      moves one forward and Previous one back. */
  lemma ButtonsNeverWrap(currentCard: nat, cards: seq<Flashcard>)
    requires currentCard < |cards|
    ensures !NextDisabled(currentCard, Some(cards)) ==> NextIndex(currentCard, |cards|) == currentCard + 1
    ensures !PrevDisabled(currentCard, Some(cards)) ==> PrevIndex(currentCard, |cards|) == currentCard - 1
  {
    NextIndexCases(currentCard, |cards|);
    PrevIndexCases(currentCard, |cards|);
  }

  class FlashcardsView {
    /** The flashcards of the summary, once the query hook has delivered them. */
    var flashcards: Option<seq<Flashcard>>
    var currentCard: nat
    var isFlipped: bool
    var selectedSummaryId: Option<string>

    /** The page mounted with route parameter `id`. */
    constructor (id: Option<string>)
      ensures flashcards == None && currentCard == 0 && !isFlipped
      ensures selectedSummaryId == if Truthy(id) then id else None
    {
      flashcards := None;
      currentCard := 0;
      isFlipped := false;
      selectedSummaryId := if Truthy(id) then id else None;
    }

    /** The query hook delivering the summary's flashcards. */
    method Receive(cards: seq<Flashcard>)
      modifies this
      ensures flashcards == Some(cards)
      ensures currentCard == old(currentCard) && isFlipped == old(isFlipped)
      ensures selectedSummaryId == old(selectedSummaryId)
    {
      flashcards := Some(cards);
    }

    method NextCard()
      modifies this
      ensures flashcards == old(flashcards) && selectedSummaryId == old(selectedSummaryId)
      ensures flashcards.None? || flashcards.value == [] ==>
        currentCard == old(currentCard) && isFlipped == old(isFlipped)
      ensures flashcards.Some? && flashcards.value != [] ==>
        currentCard == NextIndex(old(currentCard), |flashcards.value|) && !isFlipped
    {
      if flashcards.None? || |flashcards.value| == 0 {
        return;
      }
      currentCard := (currentCard + 1) % |flashcards.value|;
      isFlipped := false;
    }

    method PrevCard()
      modifies this
      ensures flashcards == old(flashcards) && selectedSummaryId == old(selectedSummaryId)
      ensures flashcards.None? || flashcards.value == [] ==>
        currentCard == old(currentCard) && isFlipped == old(isFlipped)
      ensures flashcards.Some? && flashcards.value != [] ==>
        currentCard == PrevIndex(old(currentCard), |flashcards.value|) && !isFlipped
    {
      if flashcards.None? || |flashcards.value| == 0 {
        return;
      }
      currentCard := (currentCard - 1 + |flashcards.value|) % |flashcards.value|;
      isFlipped := false;
    }

    /** The Show Answer button. */
    method ShowAnswer()
      modifies this
      ensures isFlipped
      ensures flashcards == old(flashcards) && currentCard == old(currentCard)
      ensures selectedSummaryId == old(selectedSummaryId)
    {
      isFlipped := true;
    }

    /** `handleDeleteAllFlashcards`; `reply` is the delete mutation's outcome.
        Without a selected summary nothing is requested. */
    method DeleteAllFlashcards(reply: Reply<()>) returns (requested: bool)
      modifies this
      ensures requested <==> Truthy(old(selectedSummaryId))
      ensures flashcards == old(flashcards)
      ensures requested && reply.Ok? ==> selectedSummaryId == None && currentCard == 0 && !isFlipped
      ensures !requested || !reply.Ok? ==>
        selectedSummaryId == old(selectedSummaryId) && currentCard == old(currentCard)
        && isFlipped == old(isFlipped)
    {
      requested := Truthy(selectedSummaryId);
      if !requested {
        return;
      }
      if reply.Ok? {
        selectedSummaryId := None;
        currentCard := 0;
        isFlipped := false;
      }
    }
  }
}
