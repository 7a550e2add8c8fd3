/**
 * The flashcard session (`FlashCardInterface`): a chat-style request that generates a deck,
 * then circular browsing with a flip state, and a way back to the request chat.
 */
module FlashCards {
  import opened Common
  import opened Text

  datatype FlashCard = FlashCard(front: string, back: string)

  datatype Sender = User | Bot

  /** One turn of the request chat (its id and timestamp are not modelled). */
  datatype ChatTurn = ChatTurn(text: string, sender: Sender)

  datatype View = ChatView | CardsView

  /** The generation response: an optional `error` field and an optional `flashcards` array. */
  datatype FlashCardResponse = FlashCardResponse(error: Option<string>, flashcards: Option<seq<FlashCard>>)

  /** How the generation request ended. */
  datatype GenerateOutcome = Received(response: FlashCardResponse) | RequestFailed

  const EmptyDeckText := "FlashCard oluşturulamadı. Lütfen talebinizi daha detaylı yazın."
  const RequestFailedText := "FlashCard oluşturulurken hata oluştu. Lütfen tekrar deneyin."

  /** `(i + 1) % len`; both operands are non-negative, so JavaScript's `%` agrees with Dafny's. */
  function NextIndex(i: int, len: int): (r: int)
    requires 0 <= i < len
    ensures 0 <= r < len
    ensures r == if i == len - 1 then 0 else i + 1
  {
    (i + 1) % len
  }

  /** `(i - 1 + len) % len`, again on non-negative operands. */
  function PrevIndex(i: int, len: int): (r: int)
    requires 0 <= i < len
    ensures 0 <= r < len
    ensures r == if i == 0 then len - 1 else i - 1
  {
    (i - 1 + len) % len
  }

  /** Previous undoes next, and next undoes previous. */
  lemma NextPrevInverse(i: int, len: int)
    requires 0 <= i < len
    ensures PrevIndex(NextIndex(i, len), len) == i
    ensures NextIndex(PrevIndex(i, len), len) == i
  {
  }

  /** The index after `k` presses of next. */
  function NextTimes(i: int, len: int, k: nat): (r: int)
    requires 0 <= i < len
    ensures 0 <= r < len
  {
    if k == 0 then i else NextIndex(NextTimes(i, len, k - 1), len)
  }

  /** Within one lap, `k` presses of next move `k` places, wrapping past the last card once. */
  lemma {:induction false} NextTimesWithinLap(i: int, len: int, k: nat)
    requires 0 <= i < len && k <= len
    ensures NextTimes(i, len, k) == if i + k < len then i + k else i + k - len
  {
    if k > 0 {
      NextTimesWithinLap(i, len, k - 1);
    }
  }

  /** Pressing next `a` times and then `b` times is pressing it `a + b` times. */
  lemma {:induction false} NextTimesCompose(i: int, len: int, a: nat, b: nat)
    requires 0 <= i < len
    ensures NextTimes(NextTimes(i, len, a), len, b) == NextTimes(i, len, a + b)
  {
    if b > 0 {
      NextTimesCompose(i, len, a, b - 1);
    }
  }

  /** Pressing next once per card comes back to the starting card, and so navigation repeats
      with the deck length as its period. */
  lemma FullCycleReturns(i: int, len: int, k: nat)
    requires 0 <= i < len
    ensures NextTimes(i, len, len) == i
    ensures NextTimes(i, len, k + len) == NextTimes(i, len, k)
  {
    NextTimesWithinLap(i, len, len);
    var j := NextTimes(i, len, k);
    NextTimesCompose(i, len, k, len);
    NextTimesWithinLap(j, len, len);
  }

  class FlashCardInterface {
    var currentView: View
    var message: string
    var isGenerating: bool
    var flashcards: seq<FlashCard>
    var currentCardIndex: int
    var isFlipped: bool
    var chatHistory: seq<ChatTurn>

    /** The cards view always has a card to show; the chat view holds no deck. */
    predicate Valid()
      reads this
    {
      && (currentView == CardsView ==> 0 <= currentCardIndex < |flashcards|)
      && (currentView == ChatView ==> flashcards == [] && currentCardIndex == 0)
    }

    constructor ()
      ensures Valid()
      ensures currentView == ChatView && message == "" && !isGenerating
      ensures flashcards == [] && currentCardIndex == 0 && !isFlipped && chatHistory == []
    {
      currentView := ChatView;
      message := "";
      isGenerating := false;
      flashcards := [];
      currentCardIndex := 0;
      isFlipped := false;
      chatHistory := [];
    }

    /** The request input's change handler. */
    method SetMessage(text: string)
      modifies this`message
      ensures message == text
    {
      message := text;
    }

    /** `handleGenerateFlashCards`: a blank message or a request in flight changes nothing;
        otherwise the message goes into the chat and is sent (`request`), and the outcome either
        replaces the deck and opens it, or adds one bot turn. */
    method HandleGenerateFlashCards(outcome: GenerateOutcome) returns (request: Option<string>)
      requires Valid()
      modifies this`currentView, this`message, this`isGenerating, this`flashcards
      modifies this`currentCardIndex, this`isFlipped, this`chatHistory
      ensures Valid()
      ensures IsBlank(old(message)) || old(isGenerating) ==>
        && request == None
        && currentView == old(currentView) && message == old(message) && isGenerating == old(isGenerating)
        && flashcards == old(flashcards) && currentCardIndex == old(currentCardIndex)
        && isFlipped == old(isFlipped) && chatHistory == old(chatHistory)
      ensures !IsBlank(old(message)) && !old(isGenerating) ==>
        && request == Some(old(message))
        && !isGenerating && message == ""
        && chatHistory == old(chatHistory) + [ChatTurn(old(message), User)] + BotReplies(outcome)
        && (DeckArrived(outcome) ==>
              currentView == CardsView && flashcards == outcome.response.flashcards.value
              && currentCardIndex == 0 && !isFlipped)
        && (!DeckArrived(outcome) ==>
              currentView == old(currentView) && flashcards == old(flashcards)
              && currentCardIndex == old(currentCardIndex) && isFlipped == old(isFlipped))
    {
      if IsBlank(message) || isGenerating {
        return None;
      }
      request := Some(message);
      chatHistory := chatHistory + [ChatTurn(message, User)];
      isGenerating := true;
      ApplyGenerateOutcome(outcome);
      isGenerating := false;
      message := "";
    }

    /** The part of `handleGenerateFlashCards` after the await: an error field is shown as a bot
        turn, a non-empty deck replaces the cards and opens them, and an empty deck or a failed
        request gets its fixed bot turn. */
    method ApplyGenerateOutcome(outcome: GenerateOutcome)
      requires Valid()
      modifies this`chatHistory, this`flashcards, this`currentView, this`currentCardIndex, this`isFlipped
      ensures Valid()
      ensures chatHistory == old(chatHistory) + BotReplies(outcome)
      ensures DeckArrived(outcome) ==>
        currentView == CardsView && flashcards == outcome.response.flashcards.value
        && currentCardIndex == 0 && !isFlipped
      ensures !DeckArrived(outcome) ==>
        currentView == old(currentView) && flashcards == old(flashcards)
        && currentCardIndex == old(currentCardIndex) && isFlipped == old(isFlipped)
    {
      match outcome {
        case Received(response) =>
          if response.error.Some? && response.error.value != "" {
            chatHistory := chatHistory + [ChatTurn(response.error.value, Bot)];
          } else if response.flashcards.Some? && |response.flashcards.value| > 0 {
            flashcards := response.flashcards.value;
            currentView := CardsView;
            currentCardIndex := 0;
            isFlipped := false;
          } else {
            chatHistory := chatHistory + [ChatTurn(EmptyDeckText, Bot)];
          }
        case RequestFailed =>
          chatHistory := chatHistory + [ChatTurn(RequestFailedText, Bot)];
      }
    }

    /** `nextCard` (offered only in the cards view): one card on, round to the first; unflipped. */
    method NextCard()
      requires Valid() && currentView == CardsView
      modifies this`currentCardIndex, this`isFlipped
      ensures Valid()
      ensures currentCardIndex == NextIndex(old(currentCardIndex), |flashcards|) && !isFlipped
    {
      currentCardIndex := NextIndex(currentCardIndex, |flashcards|);
      isFlipped := false;
    }

    /** `prevCard` (offered only in the cards view): one card back, round to the last; unflipped. */
    method PrevCard()
      requires Valid() && currentView == CardsView
      modifies this`currentCardIndex, this`isFlipped
      ensures Valid()
      ensures currentCardIndex == PrevIndex(old(currentCardIndex), |flashcards|) && !isFlipped
    {
      currentCardIndex := PrevIndex(currentCardIndex, |flashcards|);
      isFlipped := false;
    }

    /** `flipCard`: turns the current card over. */
    method FlipCard()
      modifies this`isFlipped
      ensures isFlipped == !old(isFlipped)
    {
      isFlipped := !isFlipped;
    }

    /** `backToChat`: drops the deck and returns to the request chat, keeping the chat history. */
    method BackToChat()
      modifies this`currentView, this`flashcards, this`currentCardIndex, this`isFlipped
      ensures Valid()
      ensures currentView == ChatView && flashcards == [] && currentCardIndex == 0 && !isFlipped
    {
      currentView := ChatView;
      flashcards := [];
      currentCardIndex := 0;
      isFlipped := false;
    }
  }

  /** A response that replaces the deck: no truthy error and a non-empty card list. */
  predicate DeckArrived(outcome: GenerateOutcome)
  {
    && outcome.Received?
    && !(outcome.response.error.Some? && outcome.response.error.value != "")
    && outcome.response.flashcards.Some? && |outcome.response.flashcards.value| > 0
  }

  /** The bot turns an outcome adds: none when the deck arrives, otherwise one explaining why not. */
  function BotReplies(outcome: GenerateOutcome): (turns: seq<ChatTurn>)
    ensures |turns| <= 1
    ensures DeckArrived(outcome) <==> turns == []
  {
    if DeckArrived(outcome) then [] else [ChatTurn(FailureReply(outcome), Bot)]
  }

  /** The bot turn added when no deck arrives. */
  function FailureReply(outcome: GenerateOutcome): string
  {
    match outcome
    case RequestFailed => RequestFailedText
    case Received(response) =>
      if response.error.Some? && response.error.value != "" then response.error.value else EmptyDeckText
  }
}
