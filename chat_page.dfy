/** The desktop chat page (frontend/src/pages/Chat.js). Each asynchronous
    handler is split at its first `await`: one method runs what happens
    before it and returns the request it starts, another runs the
    continuation once the request settles, with the outcome as a parameter. */
module ChatPage {
  import opened Wrappers
  import opened Text
  import opened Browser

  const UnableToGetResponse := "Error: Unable to get response"

  /** What `handleMessageSubmit` appends once the `/chat` request settles:
      the reply on status 200, the fixed error text when axios rejects, and
      nothing for any other success status. */
  function ChatReply(outcome: HttpOutcome): (r: seq<Message>)
    ensures |r| <= 1
    ensures |r| == 0 <==> IsOtherSuccess(outcome)
    ensures Rejects(outcome) ==> r == [BotMessage(UnableToGetResponse)]
    ensures IsOk(outcome) ==> r == [BotMessage(Rendered(outcome.field))]
    ensures forall i :: 0 <= i < |r| ==> !r[i].isUser
  {
    if Rejects(outcome) then [BotMessage(UnableToGetResponse)]
    else if IsOk(outcome) then [BotMessage(Rendered(outcome.field))]
    else []
  }

  class Chat {
    const storage: TabStorage
    var messages: seq<Message>
    var currentMessage: string          // the text field
    var isLoading: bool
    var isRecording: bool
    var capturing: bool                 // the media recorder is capturing audio
    var navigatedTo: Option<string>

    /** The recording flag shows whether the recorder is capturing. */
    ghost predicate Valid()
      reads this
    {
      isRecording == capturing
    }

    /** Mounting the page: without `setupComplete` it navigates to the setup
        page; otherwise a truthy `initialMessage` becomes the only message
        and is removed from storage, so that no later mount shows it again. */
    constructor (storage: TabStorage)
      modifies storage
      ensures Valid() && this.storage == storage
      ensures currentMessage == [] && !isLoading && !isRecording
      ensures var setupComplete := old(storage.GetItem(SetupCompleteKey));
              var initialMessage := old(storage.GetItem(InitialMessageKey));
              if !Truthy(setupComplete) then
                && navigatedTo == Some(SetupRoute) && messages == []
                && storage.items == old(storage.items)
              else if Truthy(initialMessage) then
                && navigatedTo == None && messages == [BotMessage(initialMessage.value)]
                && storage.items == old(storage.items) - {InitialMessageKey}
              else
                && navigatedTo == None && messages == []
                && storage.items == old(storage.items)
    {
      this.storage := storage;
      messages := [];
      currentMessage := [];
      isLoading := false;
      isRecording := false;
      capturing := false;
      navigatedTo := None;
      new;
      var setupComplete := storage.GetItem(SetupCompleteKey);
      if !Truthy(setupComplete) {
        navigatedTo := Some(SetupRoute);
        return;
      }
      var initialMessage := storage.GetItem(InitialMessageKey);
      if Truthy(initialMessage) {
        messages := [BotMessage(initialMessage.value)];
        storage.RemoveItem(InitialMessageKey);
      }
    }

    /** Typing into the text field. */
    method Edit(value: string)
      modifies this
      ensures currentMessage == value
      ensures messages == old(messages) && isLoading == old(isLoading)
      ensures isRecording == old(isRecording) && capturing == old(capturing)
      ensures navigatedTo == old(navigatedTo)
    {
      currentMessage := value;
    }

    /** The part of `handleMessageSubmit` before its request, run with the
        value of `currentMessage` the handler closed over. Input that is
        blank once trimmed changes nothing; otherwise the field is cleared,
        the input is appended untrimmed as the user's message, loading
        starts, and the input is what gets posted. */
    method Submit(closedOver: string) returns (posted: Option<string>)
      modifies this
      ensures Strip(closedOver) == [] ==>
                && posted == None && currentMessage == old(currentMessage)
                && messages == old(messages) && isLoading == old(isLoading)
      ensures Strip(closedOver) != [] ==>
                && posted == Some(closedOver) && currentMessage == []
                && messages == old(messages) + [UserMessage(closedOver)]
                && isLoading
      ensures isRecording == old(isRecording) && capturing == old(capturing)
      ensures navigatedTo == old(navigatedTo)
    {
      if Strip(closedOver) == [] {
        return None;
      }
      var userMessage := closedOver;
      currentMessage := [];
      messages := messages + [UserMessage(userMessage)];
      isLoading := true;
      posted := Some(userMessage);
    }

    /** Submitting the form: `handleMessageSubmit` on the current text. */
    method HandleMessageSubmit() returns (posted: Option<string>)
      modifies this
      ensures Strip(old(currentMessage)) == [] ==>
                && posted == None && currentMessage == old(currentMessage)
                && messages == old(messages) && isLoading == old(isLoading)
      ensures Strip(old(currentMessage)) != [] ==>
                && posted == Some(old(currentMessage)) && currentMessage == []
                && messages == old(messages) + [UserMessage(old(currentMessage))]
                && isLoading
      ensures isRecording == old(isRecording) && capturing == old(capturing)
      ensures navigatedTo == old(navigatedTo)
    {
      posted := Submit(currentMessage);
    }

    /** The rest of `handleMessageSubmit`, once the `/chat` request
        settles: the reply or error is appended and loading ends. */
    method ChatSettled(outcome: HttpOutcome)
      modifies this
      ensures messages == old(messages) + ChatReply(outcome)
      ensures !isLoading
      ensures currentMessage == old(currentMessage)
      ensures isRecording == old(isRecording) && capturing == old(capturing)
      ensures navigatedTo == old(navigatedTo)
    {
      if !Rejects(outcome) {
        if outcome.status == 200 {
          messages := messages + [BotMessage(Rendered(outcome.field))];
        }
      } else {
        messages := messages + [BotMessage(UnableToGetResponse)];
      }
      isLoading := false;
    }

    /** The voice button: when recording, stop the recorder and clear the
        flag; otherwise start recording only if the microphone is granted. */
    method HandleVoiceButton(permissionGranted: bool) returns (stopped: bool)
      requires Valid()
      modifies this
      ensures Valid()
      ensures stopped == old(isRecording)
      ensures old(isRecording) ==> !isRecording
      ensures !old(isRecording) ==> isRecording == permissionGranted
      ensures messages == old(messages) && currentMessage == old(currentMessage)
      ensures isLoading == old(isLoading) && navigatedTo == old(navigatedTo)
    {
      stopped := isRecording;
      if isRecording {
        capturing := false;
        isRecording := false;
      } else if permissionGranted {
        capturing := true;
        isRecording := true;
      }
    }

    /** The part of the recorder's `onStop` before the upload: loading
        starts. */
    method RecorderStopped()
      modifies this
      ensures isLoading
      ensures messages == old(messages) && currentMessage == old(currentMessage)
      ensures isRecording == old(isRecording) && capturing == old(capturing)
      ensures navigatedTo == old(navigatedTo)
    {
      isLoading := true;
    }

    /** The rest of `onStop`, once the upload settles. A truthy transcript
        is put in the text field and `handleMessageSubmit` is started on the
        value of `currentMessage` the callback closed over, which need not be
        the transcript; it is not awaited. A failed upload or an empty
        transcript submits nothing. Loading ends in every case, even while a
        started chat request is still outstanding. */
    method TranscriptionSettled(outcome: HttpOutcome, closedOver: string) returns (posted: Option<string>)
      modifies this
      ensures !isLoading
      ensures Rejects(outcome) || !Truthy(outcome.field) ==>
                && posted == None && messages == old(messages)
                && currentMessage == old(currentMessage)
      ensures !Rejects(outcome) && Truthy(outcome.field) && Strip(closedOver) == [] ==>
                && posted == None && messages == old(messages)
                && currentMessage == outcome.field.value
      ensures !Rejects(outcome) && Truthy(outcome.field) && Strip(closedOver) != [] ==>
                && posted == Some(closedOver) && currentMessage == []
                && messages == old(messages) + [UserMessage(closedOver)]
      ensures isRecording == old(isRecording) && capturing == old(capturing)
      ensures navigatedTo == old(navigatedTo)
    {
      posted := None;
      if !Rejects(outcome) && Truthy(outcome.field) {
        currentMessage := outcome.field.value;
        posted := Submit(closedOver);
      }
      isLoading := false;
    }
  }
}
