/**
 * The flashcard viewer: a card list fetched for a document, a cursor that
 * `next` and `previous` move without wrapping, a flag for which side of the
 * current card shows, and the loading / error state of the fetch that a
 * "Try Again" button repeats.
 */
module Flashcards {
  import opened Wrappers

  datatype Flashcard = Flashcard(front: string, back: string)

  /**
   * What the flashcard request delivered: the `flashcards` field of the reply
   * (absent is `None`), or a failure carrying the error's message (possibly empty).
   */
  datatype LoadOutcome = Loaded(flashcards: Option<seq<Flashcard>>) | LoadFailed(message: string)

  const DefaultError: string := "Failed to load flashcards."

  /** `err.message || "Failed to load flashcards."`: the message shown, never empty. */
  function ErrorText(message: string): (r: string)
    ensures r != ""
    ensures message != "" ==> r == message
    ensures message == "" ==> r == DefaultError
  {
    if message != "" then message else DefaultError
  }

  /** The updater of `handleNext`: one card on, unless already on the last card. */
  function NextIndex(index: nat, count: nat): (r: nat)
    ensures r == index + 1 <==> index < count - 1
    ensures r == index <==> index >= count - 1
    ensures index < count ==> r < count
  {
    if index < count - 1 then index + 1 else index
  }

  /** The updater of `handlePrev`: one card back, unless already on the first card. */
  function PrevIndex(index: nat): (r: nat)
    ensures r + 1 == index <==> index > 0
    ensures r == index <==> index == 0
    ensures r <= index
  {
    if index > 0 then index - 1 else index
  }

  class FlashcardViewer {
    const documentId: string
    var cards: seq<Flashcard>
    var currentIndex: nat
    var isFlipped: bool
    var isLoading: bool
    var error: string

    /** The document ids of the requests made so far, in order. */
    ghost var requests: seq<string>

    /** The cursor is on a card, or at 0 when there are none. */
    ghost predicate Valid()
      reads this
    {
      currentIndex < |cards| || currentIndex == 0
    }

    /** The component as mounted: loading, no cards, no error, nothing requested yet. */
    constructor (documentId: string)
      ensures Valid()
      ensures this.documentId == documentId && cards == [] && currentIndex == 0
      ensures !isFlipped && isLoading && error == "" && requests == []
    {
      this.documentId := documentId;
      cards := [];
      currentIndex := 0;
      isFlipped := false;
      isLoading := true;
      error := "";
      requests := [];
    }

    /** The synchronous start of `fetchCards`: loading, the error cleared, the request sent for this document. */
    method StartFetch()
      requires Valid()
      modifies this
      ensures Valid()
      ensures isLoading && error == "" && requests == old(requests) + [documentId]
      ensures cards == old(cards) && currentIndex == old(currentIndex) && isFlipped == old(isFlipped)
    {
      isLoading := true;
      error := "";
      requests := requests + [documentId];
    }

    /**
     * The end of `fetchCards`: on success the reply's cards (none when
     * absent) with the cursor on the first, front side up; on failure the
     * error message, cards and cursor untouched; loading ends either way.
     */
    method FinishFetch(outcome: LoadOutcome)
      requires Valid() && error == ""
      modifies this
      ensures Valid() && !isLoading && requests == old(requests)
      ensures outcome.Loaded? ==>
                cards == (if outcome.flashcards.Some? then outcome.flashcards.value else []) &&
                currentIndex == 0 && !isFlipped && error == ""
      ensures outcome.LoadFailed? ==>
                error == ErrorText(outcome.message) &&
                cards == old(cards) && currentIndex == old(currentIndex) && isFlipped == old(isFlipped)
    {
      match outcome {
        case Loaded(flashcards) =>
          cards := if flashcards.Some? then flashcards.value else [];
          currentIndex := 0;
          isFlipped := false;
        case LoadFailed(message) =>
          error := ErrorText(message);
      }
      isLoading := false;
    }

    /** `fetchCards` as a whole, with the request's outcome given. */
    method FetchCards(outcome: LoadOutcome)
      requires Valid()
      modifies this
      ensures Valid() && !isLoading && requests == old(requests) + [documentId]
      ensures outcome.Loaded? ==>
                cards == (if outcome.flashcards.Some? then outcome.flashcards.value else []) &&
                currentIndex == 0 && !isFlipped && error == ""
      ensures outcome.LoadFailed? ==>
                error == ErrorText(outcome.message) &&
                cards == old(cards) && currentIndex == old(currentIndex) && isFlipped == old(isFlipped)
    {
      StartFetch();
      FinishFetch(outcome);
    }

    /** "Try Again", shown on the error view: the same fetch for the same document once more. */
    method Retry(outcome: LoadOutcome)
      requires Valid() && !isLoading && error != ""
      modifies this
      ensures Valid() && !isLoading && requests == old(requests) + [documentId]
      ensures outcome.Loaded? ==>
                cards == (if outcome.flashcards.Some? then outcome.flashcards.value else []) &&
                currentIndex == 0 && !isFlipped && error == ""
      ensures outcome.LoadFailed? ==>
                error == ErrorText(outcome.message) &&
                cards == old(cards) && currentIndex == old(currentIndex) && isFlipped == old(isFlipped)
    {
      FetchCards(outcome);
    }

    /** `handleNext`: the card turns front side up and the cursor moves on unless on the last card. */
    method Next()
      requires Valid()
      modifies this
      ensures Valid()
      ensures !isFlipped && currentIndex == NextIndex(old(currentIndex), |cards|)
      ensures cards == old(cards) && isLoading == old(isLoading) && error == old(error) && requests == old(requests)
    {
      isFlipped := false;
      currentIndex := NextIndex(currentIndex, |cards|);
    }

    /** `handlePrev`: the card turns front side up and the cursor moves back unless on the first card. */
    method Prev()
      requires Valid()
      modifies this
      ensures Valid()
      ensures !isFlipped && currentIndex == PrevIndex(old(currentIndex))
      ensures cards == old(cards) && isLoading == old(isLoading) && error == old(error) && requests == old(requests)
    {
      isFlipped := false;
      currentIndex := PrevIndex(currentIndex);
    }

    /** A click on the card turns it over, and changes nothing else. */
    method Flip()
      requires Valid()
      modifies this
      ensures Valid()
      ensures isFlipped == !old(isFlipped)
      ensures cards == old(cards) && currentIndex == old(currentIndex)
      ensures isLoading == old(isLoading) && error == old(error) && requests == old(requests)
    {
      isFlipped := !isFlipped;
    }
  }

  /** A failed fetch shows its message; retrying sends the same request again and can then show the cards. */
  method RetryScenario(deck: seq<Flashcard>) {
    var viewer := new FlashcardViewer("doc");
    viewer.FetchCards(LoadFailed(""));
    assert viewer.error == DefaultError && !viewer.isLoading;
    viewer.Retry(Loaded(Some(deck)));
    assert viewer.requests == ["doc", "doc"];
    assert viewer.cards == deck && viewer.currentIndex == 0 && viewer.error == "";
  }
}
