/** The mobile chat page (frontend/src/pages/MobileChat.js): one question
    shown at a time, answered by voice or by a text form. As on the desktop
    page, each asynchronous handler is split at its awaits, and each timer
    callback is a method of its own. */
module MobileChatPage {
  import opened Wrappers
  import opened Text
  import opened Browser

  const WelcomeText := "Hi, I'm Survai, your digital interviewer. Let's have a great conversation!"
  const ConnectionLost := "Connection lost. Please try again."

  const Welcome := Message(WelcomeText, false, true, false)

  /** A message the page may show as the current question: one that is
      neither the user's nor the welcome. */
  predicate IsQuestion(m: Message) {
    !m.isUser && !m.isWelcome
  }

  /** Position `j` holds a question and no question follows it. */
  predicate IsLatestQuestion(ms: seq<Message>, j: int) {
    0 <= j < |ms| && IsQuestion(ms[j]) && forall k :: j < k < |ms| ==> !IsQuestion(ms[k])
  }

  /** The latest question in a transcript, if any (LastQuestionIsLatest). */
  function LastQuestion(ms: seq<Message>): (q: Option<Message>)
    ensures q.Some? ==> q.value in ms && IsQuestion(q.value)
    ensures q.None? ==> forall k :: 0 <= k < |ms| ==> !IsQuestion(ms[k])
    decreases |ms|
  {
    if ms == [] then None
    else if IsQuestion(ms[|ms| - 1]) then Some(ms[|ms| - 1])
    else LastQuestion(ms[..|ms| - 1])
  }

  /** Behind a message that is not a question, the latest question of the
      earlier messages stays the latest. */
  lemma LatestBeforeNonQuestion(ms: seq<Message>, j: int)
    requires ms != [] && !IsQuestion(ms[|ms| - 1])
    requires IsLatestQuestion(ms[..|ms| - 1], j)
    ensures IsLatestQuestion(ms, j) && ms[j] == ms[..|ms| - 1][j]
  {
    var p := ms[..|ms| - 1];
    assert forall k :: 0 <= k < |p| ==> p[k] == ms[k];
  }

  /** LastQuestion gives a question after which no question follows, and
      None exactly when the transcript holds no question. */
  lemma {:induction false} LastQuestionIsLatest(ms: seq<Message>)
    ensures LastQuestion(ms).Some? ==>
              exists j :: IsLatestQuestion(ms, j) && ms[j] == LastQuestion(ms).value
    ensures LastQuestion(ms).None? <==> forall k :: 0 <= k < |ms| ==> !IsQuestion(ms[k])
    decreases |ms|
  {
    if ms == [] {
    } else if IsQuestion(ms[|ms| - 1]) {
      assert IsLatestQuestion(ms, |ms| - 1);
    } else {
      var p := ms[..|ms| - 1];
      LastQuestionIsLatest(p);
      if LastQuestion(p).Some? {
        var j :| IsLatestQuestion(p, j) && p[j] == LastQuestion(p).value;
        LatestBeforeNonQuestion(ms, j);
        assert IsQuestion(ms[j]);
      }
    }
  }

  /** Appending a question makes it the latest; appending anything else
      keeps the latest one. */
  lemma LastQuestionAppend(ms: seq<Message>, m: Message)
    ensures LastQuestion(ms + [m]) == if IsQuestion(m) then Some(m) else LastQuestion(ms)
  {
    assert (ms + [m])[..|ms|] == ms;
  }

  /** What `handleMessage` appends once the `/chat` request settles: the
      reply on status 200, the flagged error text when axios rejects, and
      nothing for any other success status. */
  function MobileReply(outcome: HttpOutcome): (r: seq<Message>)
    ensures |r| <= 1
    ensures |r| == 0 <==> IsOtherSuccess(outcome)
    ensures Rejects(outcome) ==> r == [Message(ConnectionLost, false, false, true)]
    ensures IsOk(outcome) ==> r == [BotMessage(Rendered(outcome.field))]
    ensures forall i :: 0 <= i < |r| ==> IsQuestion(r[i])
  {
    if Rejects(outcome) then [Message(ConnectionLost, false, false, true)]
    else if IsOk(outcome) then [BotMessage(Rendered(outcome.field))]
    else []
  }

  class MobileChat {
    const storage: TabStorage
    var allMessages: seq<Message>
    var currentQuestion: Option<Message>
    var isRecording: bool
    var capturing: bool                 // the media recorder is capturing audio
    var showTextInput: bool
    var textMessage: string
    var isTypingEffect: bool
    var scheduledInitial: Option<string> // the initial message waiting on its timer
    var navigatedTo: Option<string>

    /** The question shown is the latest one received, and the recording
        flag shows whether the recorder is capturing. */
    ghost predicate Valid()
      reads this
    {
      && currentQuestion == LastQuestion(allMessages)
      && isRecording == capturing
    }

    /** Mounting the page: without `setupComplete` it navigates to the
        setup page and shows nothing; otherwise the welcome is shown first,
        and a truthy `initialMessage` is removed from storage and scheduled
        to follow it. */
    constructor (storage: TabStorage)
      modifies storage
      ensures Valid() && this.storage == storage
      ensures !isRecording && !showTextInput && textMessage == []
      ensures var setupComplete := old(storage.GetItem(SetupCompleteKey));
              var initialMessage := old(storage.GetItem(InitialMessageKey));
              if !Truthy(setupComplete) then
                && navigatedTo == Some(SetupRoute) && allMessages == []
                && scheduledInitial == None && storage.items == old(storage.items)
              else
                && navigatedTo == None && allMessages == [Welcome] && isTypingEffect
                && currentQuestion == None
                && (Truthy(initialMessage) ==>
                      && scheduledInitial == initialMessage
                      && storage.items == old(storage.items) - {InitialMessageKey})
                && (!Truthy(initialMessage) ==>
                      && scheduledInitial == None
                      && storage.items == old(storage.items))
    {
      this.storage := storage;
      allMessages := [];
      currentQuestion := None;
      isRecording := false;
      capturing := false;
      showTextInput := false;
      textMessage := [];
      isTypingEffect := false;
      scheduledInitial := None;
      navigatedTo := None;
      new;
      var setupComplete := storage.GetItem(SetupCompleteKey);
      if !Truthy(setupComplete) {
        navigatedTo := Some(SetupRoute);
        return;
      }
      HandleNewMessage(Welcome);
      var initialMessage := storage.GetItem(InitialMessageKey);
      if Truthy(initialMessage) {
        scheduledInitial := initialMessage;
        storage.RemoveItem(InitialMessageKey);
      }
    }

    /** `handleNewMessage` up to its delay: the message is appended, the
        typing effect starts, and a question becomes the current one. */
    method HandleNewMessage(message: Message)
      requires Valid()
      modifies this
      ensures Valid()
      ensures allMessages == old(allMessages) + [message]
      ensures isTypingEffect
      ensures IsQuestion(message) ==> currentQuestion == Some(message)
      ensures !IsQuestion(message) ==> currentQuestion == old(currentQuestion)
      ensures isRecording == old(isRecording) && capturing == old(capturing)
      ensures showTextInput == old(showTextInput) && textMessage == old(textMessage)
      ensures scheduledInitial == old(scheduledInitial) && navigatedTo == old(navigatedTo)
    {
      LastQuestionAppend(allMessages, message);
      isTypingEffect := true;
      allMessages := allMessages + [message];
      if !message.isUser && !message.isWelcome {
        currentQuestion := Some(message);
      }
      assert currentQuestion == LastQuestion(allMessages);
    }

    /** The end of a `handleNewMessage` delay: the typing effect stops. */
    method TypingDelayElapsed()
      modifies this
      ensures !isTypingEffect
      ensures allMessages == old(allMessages) && currentQuestion == old(currentQuestion)
      ensures isRecording == old(isRecording) && capturing == old(capturing)
      ensures showTextInput == old(showTextInput) && textMessage == old(textMessage)
      ensures scheduledInitial == old(scheduledInitial) && navigatedTo == old(navigatedTo)
    {
      isTypingEffect := false;
    }

    /** The mount timer: the scheduled initial message is shown as a
        question. */
    method InitialTimerFired()
      requires Valid() && scheduledInitial.Some?
      modifies this
      ensures Valid()
      ensures allMessages == old(allMessages) + [BotMessage(old(scheduledInitial).value)]
      ensures currentQuestion == Some(BotMessage(old(scheduledInitial).value))
      ensures scheduledInitial == None && isTypingEffect
      ensures isRecording == old(isRecording) && capturing == old(capturing)
      ensures showTextInput == old(showTextInput) && textMessage == old(textMessage)
      ensures navigatedTo == old(navigatedTo)
    {
      var text := scheduledInitial.value;
      scheduledInitial := None;
      HandleNewMessage(BotMessage(text));
    }

    /** `handleMessage` up to its request: the answer is appended as the
        user's message, and it is what gets posted. */
    method HandleMessage(text: string) returns (posted: string)
      requires Valid()
      modifies this
      ensures Valid()
      ensures posted == text
      ensures allMessages == old(allMessages) + [UserMessage(text)]
      ensures currentQuestion == old(currentQuestion)
      ensures isTypingEffect
      ensures isRecording == old(isRecording) && capturing == old(capturing)
      ensures showTextInput == old(showTextInput) && textMessage == old(textMessage)
      ensures scheduledInitial == old(scheduledInitial) && navigatedTo == old(navigatedTo)
    {
      HandleNewMessage(UserMessage(text));
      posted := text;
    }

    /** The rest of `handleMessage`, once the `/chat` request settles: the
        reply or the connection error is appended and becomes the current
        question; another success status appends nothing. */
    method ChatSettled(outcome: HttpOutcome)
      requires Valid()
      modifies this
      ensures Valid()
      ensures allMessages == old(allMessages) + MobileReply(outcome)
      ensures MobileReply(outcome) != [] ==> currentQuestion == Some(MobileReply(outcome)[0])
      ensures MobileReply(outcome) == [] ==> currentQuestion == old(currentQuestion)
      ensures isTypingEffect == (MobileReply(outcome) != [] || old(isTypingEffect))
      ensures isRecording == old(isRecording) && capturing == old(capturing)
      ensures showTextInput == old(showTextInput) && textMessage == old(textMessage)
      ensures scheduledInitial == old(scheduledInitial) && navigatedTo == old(navigatedTo)
    {
      if !Rejects(outcome) {
        if outcome.status == 200 {
          HandleNewMessage(BotMessage(Rendered(outcome.field)));
        }
      } else {
        HandleNewMessage(Message(ConnectionLost, false, false, true));
      }
    }

    /** The recorder's `onStop`, once the upload settles: a truthy
        transcript is answered with `handleMessage`; a failed upload or an
        empty transcript changes nothing. */
    method TranscriptionSettled(outcome: HttpOutcome) returns (posted: Option<string>)
      requires Valid()
      modifies this
      ensures Valid()
      ensures !Rejects(outcome) && Truthy(outcome.field) ==>
                && posted == outcome.field
                && allMessages == old(allMessages) + [UserMessage(outcome.field.value)]
      ensures Rejects(outcome) || !Truthy(outcome.field) ==>
                posted == None && allMessages == old(allMessages)
      ensures isTypingEffect == (posted.Some? || old(isTypingEffect))
      ensures currentQuestion == old(currentQuestion)
      ensures isRecording == old(isRecording) && capturing == old(capturing)
      ensures showTextInput == old(showTextInput) && textMessage == old(textMessage)
      ensures scheduledInitial == old(scheduledInitial) && navigatedTo == old(navigatedTo)
    {
      posted := None;
      if !Rejects(outcome) && Truthy(outcome.field) {
        var text := HandleMessage(outcome.field.value);
        posted := Some(text);
      }
    }

    /** The voice button: when recording, stop the recorder and clear the
        flag; otherwise start recording only if the microphone is granted. */
    method HandleVoiceButton(permissionGranted: bool) returns (stopped: bool)
      requires Valid()
      modifies this
      ensures Valid()
      ensures stopped == old(isRecording)
      ensures old(isRecording) ==> !isRecording
      ensures !old(isRecording) ==> isRecording == permissionGranted
      ensures allMessages == old(allMessages) && currentQuestion == old(currentQuestion)
      ensures isTypingEffect == old(isTypingEffect)
      ensures showTextInput == old(showTextInput) && textMessage == old(textMessage)
      ensures scheduledInitial == old(scheduledInitial) && navigatedTo == old(navigatedTo)
    {
      stopped := isRecording;
      if isRecording {
        capturing := false;
        isRecording := false;
      } else if permissionGranted {
        capturing := true;
        isRecording := true;
      }
    }

    /** The keyboard and close buttons. */
    method SetShowTextInput(show: bool)
      modifies this
      ensures showTextInput == show
      ensures allMessages == old(allMessages) && currentQuestion == old(currentQuestion)
      ensures isTypingEffect == old(isTypingEffect)
      ensures isRecording == old(isRecording) && capturing == old(capturing)
      ensures textMessage == old(textMessage)
      ensures scheduledInitial == old(scheduledInitial) && navigatedTo == old(navigatedTo)
    {
      showTextInput := show;
    }

    /** Typing into the text field. */
    method Edit(value: string)
      modifies this
      ensures textMessage == value
      ensures allMessages == old(allMessages) && currentQuestion == old(currentQuestion)
      ensures isTypingEffect == old(isTypingEffect)
      ensures isRecording == old(isRecording) && capturing == old(capturing)
      ensures showTextInput == old(showTextInput)
      ensures scheduledInitial == old(scheduledInitial) && navigatedTo == old(navigatedTo)
    {
      textMessage := value;
    }

    /** The text form: input that is blank once trimmed changes nothing;
        otherwise the field is cleared and hidden and the untrimmed input
        is answered with `handleMessage`. */
    method SubmitTextForm() returns (posted: Option<string>)
      requires Valid()
      modifies this
      ensures Valid()
      ensures Strip(old(textMessage)) == [] ==>
                && posted == None && allMessages == old(allMessages)
                && textMessage == old(textMessage) && showTextInput == old(showTextInput)
                && isTypingEffect == old(isTypingEffect)
      ensures Strip(old(textMessage)) != [] ==>
                && posted == Some(old(textMessage))
                && allMessages == old(allMessages) + [UserMessage(old(textMessage))]
                && textMessage == [] && !showTextInput && isTypingEffect
      ensures currentQuestion == old(currentQuestion)
      ensures isRecording == old(isRecording) && capturing == old(capturing)
      ensures scheduledInitial == old(scheduledInitial) && navigatedTo == old(navigatedTo)
    {
      posted := None;
      if Strip(textMessage) != [] {
        var message := textMessage;
        textMessage := [];
        showTextInput := false;
        var text := HandleMessage(message);
        posted := Some(text);
      }
    }
  }
}
