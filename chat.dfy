/**
 * The question-answering chat (`ChatInterface`): an append-only message log, a send guard,
 * and the simulated streaming of a reply, one word per interval tick.
 */
module Chat {
  import opened Common
  import opened Text

  datatype Sender = User | Bot

  /** One chat message (its id and timestamp are not modelled). */
  datatype Message = Message(text: string, sender: Sender)

  /** How the chat request ended. */
  datatype ChatOutcome = Reply(text: string) | RequestFailed

  /** The state the running interval closes over: the reply, its words, and the next word's index. */
  datatype Stream = Stream(text: string, words: seq<string>, index: nat)

  const ErrorText := "Üzgünüm, bir hata oluştu. Lütfen tekrar deneyin."

  /** The text shown after `k` ticks: the first `k` words, a single space between neighbours. */
  function Streamed(words: seq<string>, k: nat): (s: string)
    requires k <= |words|
    ensures k > 0 ==> s == JoinWith(words[..k], " ")
  {
    if k == 0 then ""
    else if k == 1 then
      assert words[..1] == [words[0]];
      words[0]
    else
      assert words[..k] == words[..k - 1] + [words[k - 1]];
      JoinWithSnoc(words[..k - 1], words[k - 1], " ");
      Streamed(words, k - 1) + " " + words[k - 1]
  }

  /** Once every word is shown, the streamed text is the whole reply. */
  lemma StreamedAllWords(text: string)
    ensures Streamed(Split(text, ' '), |Split(text, ' ')|) == text
  {
    var words := Split(text, ' ');
    assert words[..|words|] == words;
    JoinSplit(text, ' ');
  }

  class ChatInterface {
    var messages: seq<Message>
    var inputMessage: string
    var isLoading: bool
    var streamingMessage: string
    /** The running streaming interval, if any. */
    var stream: Option<Stream>

    /** While a reply is streaming, the chat is loading and shows exactly the words ticked so far. */
    predicate Valid()
      reads this
    {
      match stream
      case None => streamingMessage == ""
      case Some(st) =>
        && isLoading
        && st.words == Split(st.text, ' ')
        && st.index <= |st.words|
        && streamingMessage == Streamed(st.words, st.index)
    }

    constructor ()
      ensures Valid()
      ensures messages == [] && inputMessage == "" && !isLoading && streamingMessage == "" && stream == None
    {
      messages := [];
      inputMessage := "";
      isLoading := false;
      streamingMessage := "";
      stream := None;
    }

    /** The input's change handler. */
    method SetInputMessage(text: string)
      modifies this`inputMessage
      ensures inputMessage == text
    {
      inputMessage := text;
    }

    /** `handleSendMessage`: a blank input or a reply in progress changes nothing; otherwise the
        input becomes a user message and is sent (`request`); a reply starts streaming, a failure
        adds the fixed error message. */
    method HandleSendMessage(outcome: ChatOutcome) returns (request: Option<string>)
      requires Valid()
      modifies this
      ensures Valid()
      ensures IsBlank(old(inputMessage)) || old(isLoading) ==>
        && request == None
        && messages == old(messages) && inputMessage == old(inputMessage) && isLoading == old(isLoading)
        && streamingMessage == old(streamingMessage) && stream == old(stream)
      ensures !IsBlank(old(inputMessage)) && !old(isLoading) ==>
        && request == Some(old(inputMessage))
        && inputMessage == ""
        && (outcome.Reply? ==>
              && messages == old(messages) + [Message(old(inputMessage), User)]
              && isLoading && streamingMessage == ""
              && stream == Some(Stream(outcome.text, Split(outcome.text, ' '), 0)))
        && (outcome.RequestFailed? ==>
              && messages == old(messages) + [Message(old(inputMessage), User), Message(ErrorText, Bot)]
              && !isLoading && stream == old(stream))
    {
      if IsBlank(inputMessage) || isLoading {
        return None;
      }
      var sent := inputMessage;
      messages := messages + [Message(sent, User)];
      inputMessage := "";
      isLoading := true;
      request := Some(sent);
      match outcome {
        case Reply(text) =>
          streamingMessage := "";
          stream := Some(Stream(text, Split(text, ' '), 0));
        case RequestFailed =>
          messages := messages + [Message(ErrorText, Bot)];
          isLoading := false;
      }
    }

    /** One tick of the streaming interval: show the next word, or, after the last word, commit
        the whole reply as a bot message and stop. The state updater is taken to run when it is
        called, so it sees the word index before the increment that follows it. */
    method Tick()
      requires Valid() && stream.Some?
      modifies this`messages, this`isLoading, this`streamingMessage, this`stream
      ensures Valid()
      ensures old(stream.value.index) < |old(stream.value.words)| ==>
        && stream == Some(old(stream.value).(index := old(stream.value.index) + 1))
        && streamingMessage == Streamed(old(stream.value.words), old(stream.value.index) + 1)
        && messages == old(messages) && isLoading
      ensures old(stream.value.index) == |old(stream.value.words)| ==>
        && messages == old(messages) + [Message(old(stream.value.text), Bot)]
        && old(streamingMessage) == old(stream.value.text)
        && streamingMessage == "" && !isLoading && stream == None
    {
      var st := stream.value;
      if st.index < |st.words| {
        streamingMessage := streamingMessage + (if st.index == 0 then "" else " ") + st.words[st.index];
        stream := Some(st.(index := st.index + 1));
      } else {
        StreamedAllWords(st.text);
        messages := messages + [Message(st.text, Bot)];
        streamingMessage := "";
        isLoading := false;
        stream := None;
      }
    }
  }
}
