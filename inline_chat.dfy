/** The chat page the backend serves itself (the script of app.py's
    interview page): a send function guarded by an `isProcessing` flag that
    disables the input, the button and shows a loading notice while a
    request is outstanding. The function is split at its `fetch`: one method
    runs what happens before it, another what happens once it settles. */
module InlineChat {
  import opened Wrappers
  import opened Text
  import opened Browser

  /** A message bubble in the page. */
  datatype Bubble = Bubble(text: string, fromUser: bool)

  /** How the `fetch` of `/chat` and the parsing of its JSON body settle. */
  datatype FetchOutcome =
    | FetchFailed(reason: string)     // `fetch` rejected
    | NotJson(reason: string)         // `response.json()` rejected
    | Json(ok: bool, message: Option<string>, error: Option<string>)

  const NotOk := "Network response was not ok"

  /** The bubbles the settled request adds: the reply when the response is
      ok and its message truthy; otherwise, on any failure, one bubble
      `"Error: " + reason`, where a response that is not ok gives its
      `error` field, or a fixed text when that is not truthy. */
  function ReplyBubbles(outcome: FetchOutcome): (r: seq<Bubble>)
    ensures |r| <= 1
    ensures forall i :: 0 <= i < |r| ==> !r[i].fromUser
    ensures r == [] <==> outcome.Json? && outcome.ok && !Truthy(outcome.message)
    ensures outcome.Json? && outcome.ok && Truthy(outcome.message) ==> r == [Bubble(outcome.message.value, false)]
    ensures outcome.Json? && !outcome.ok ==>
              r == [Bubble("Error: " + (if Truthy(outcome.error) then outcome.error.value else NotOk), false)]
    ensures !outcome.Json? ==> r == [Bubble("Error: " + outcome.reason, false)]
  {
    match outcome
    case FetchFailed(reason) => [Bubble("Error: " + reason, false)]
    case NotJson(reason) => [Bubble("Error: " + reason, false)]
    case Json(ok, message, error) =>
      if !ok then [Bubble("Error: " + (if Truthy(error) then error.value else NotOk), false)]
      else if Truthy(message) then [Bubble(message.value, false)]
      else []
  }

  class ChatPage {
    var chat: seq<Bubble>
    var inputValue: string
    var isProcessing: bool
    var inputDisabled: bool
    var sendDisabled: bool
    var loadingActive: bool

    /** The controls are disabled and the notice shown exactly while a
        request is outstanding; the page always starts with the opening
        question; every bubble the user sent is trimmed and non-empty; and
        while a request is outstanding the user's message is the last
        bubble. */
    ghost predicate Valid()
      reads this
    {
      && inputDisabled == isProcessing && sendDisabled == isProcessing && loadingActive == isProcessing
      && |chat| >= 1 && !chat[0].fromUser
      && (forall i :: 0 <= i < |chat| && chat[i].fromUser ==> chat[i].text != [] && IsStripped(chat[i].text))
      && (isProcessing ==> chat[|chat| - 1].fromUser)
    }

    /** The page as served, showing the opening question. */
    constructor (initialMessage: string)
      ensures Valid()
      ensures chat == [Bubble(initialMessage, false)] && inputValue == [] && !isProcessing
    {
      chat := [Bubble(initialMessage, false)];
      inputValue := [];
      isProcessing := false;
      inputDisabled := false;
      sendDisabled := false;
      loadingActive := false;
    }

    /** Typing into the input. */
    method Edit(value: string)
      requires Valid()
      modifies this
      ensures Valid()
      ensures inputValue == value
      ensures chat == old(chat) && isProcessing == old(isProcessing)
    {
      inputValue := value;
    }

    /** `sendMessage` up to its `fetch`. While a request is outstanding, or
        when the trimmed input is empty, nothing changes. Otherwise the
        input is cleared, the trimmed text is appended as the user's bubble
        and posted, and the page waits. */
    method SendMessage() returns (posted: Option<string>)
      requires Valid()
      modifies this
      ensures Valid()
      ensures old(isProcessing) || Strip(old(inputValue)) == [] ==>
                && posted == None && chat == old(chat)
                && inputValue == old(inputValue) && isProcessing == old(isProcessing)
      ensures !old(isProcessing) && Strip(old(inputValue)) != [] ==>
                && posted == Some(Strip(old(inputValue)))
                && chat == old(chat) + [Bubble(Strip(old(inputValue)), true)]
                && inputValue == [] && isProcessing
    {
      if isProcessing {
        return None;
      }
      var message := Strip(inputValue);
      if message == [] {
        return None;
      }
      inputValue := [];
      chat := chat + [Bubble(message, true)];
      isProcessing := true;
      inputDisabled := true;
      sendDisabled := true;
      loadingActive := true;
      posted := Some(message);
    }

    /** The rest of `sendMessage`, once the request settles: the reply or
        the error is appended and, whatever happened, the page stops
        waiting. */
    method RequestSettled(outcome: FetchOutcome)
      requires Valid() && isProcessing
      modifies this
      ensures Valid()
      ensures chat == old(chat) + ReplyBubbles(outcome)
      ensures !isProcessing
      ensures inputValue == old(inputValue)
    {
      match outcome {
        case FetchFailed(reason) =>
          chat := chat + [Bubble("Error: " + reason, false)];
        case NotJson(reason) =>
          chat := chat + [Bubble("Error: " + reason, false)];
        case Json(ok, message, error) =>
          if !ok {
            var reason := if Truthy(error) then error.value else NotOk;
            chat := chat + [Bubble("Error: " + reason, false)];
          } else if Truthy(message) {
            chat := chat + [Bubble(message.value, false)];
          }
      }
      isProcessing := false;
      inputDisabled := false;
      sendDisabled := false;
      loadingActive := false;
    }
  }
}
