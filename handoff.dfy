/** The hand-off between the setup page and the chat pages through the
    tab's storage: the opening question written on a successful set-up is
    shown by the first chat page mounted and by no later one. */
module Handoff {
  import opened Wrappers
  import opened Browser
  import opened ChatSetupPage
  import opened ChatPage
  import opened MobileChatPage

  /** A set-up answered with status 200, followed by two mounts of the
      desktop chat page in the same tab: the first shows the opening
      question alone (unless the server sent it empty), the second shows
      nothing. */
  method SetupThenChatTwice(items: map<string, string>, outcome: HttpOutcome)
      returns (navigated: Option<string>, first: seq<Message>, second: seq<Message>)
    requires IsOk(outcome)
    ensures navigated == Some(ChatRoute)
    ensures Truthy(Some(Stored(outcome.field))) ==> first == [BotMessage(Stored(outcome.field))]
    ensures !Truthy(Some(Stored(outcome.field))) ==> first == []
    ensures second == []
  {
    var storage := new TabStorage(items);
    var setup := new ChatSetup(storage);
    var _ := setup.HandleSetupSubmit();
    setup.SetupSettled(outcome);
    navigated := setup.navigatedTo;
    var page := new Chat(storage);
    first := page.messages;
    var again := new Chat(storage);
    second := again.messages;
  }

  /** A set-up that fails leaves a tab that had never been set up sending
      the chat page back to the setup page. */
  method FailedSetupRedirects(outcome: HttpOutcome) returns (navigated: Option<string>, shown: seq<Message>)
    requires !IsOk(outcome)
    ensures navigated == Some(SetupRoute)
    ensures shown == []
  {
    var storage := new TabStorage(map[]);
    var setup := new ChatSetup(storage);
    var _ := setup.HandleSetupSubmit();
    setup.SetupSettled(outcome);
    var page := new Chat(storage);
    navigated := page.navigatedTo;
    shown := page.messages;
  }

  /** A set-up answered with a non-empty opening question, followed by the
      mobile page: the welcome comes first, the opening question follows
      when its timer fires and becomes the current question. */
  method SetupThenMobile(items: map<string, string>, outcome: HttpOutcome, question: string)
      returns (shown: seq<Message>, current: Option<Message>)
    requires IsOk(outcome) && outcome.field == Some(question) && question != []
    ensures shown == [Welcome, BotMessage(question)]
    ensures current == Some(BotMessage(question))
  {
    var storage := new TabStorage(items);
    var setup := new ChatSetup(storage);
    var _ := setup.HandleSetupSubmit();
    setup.SetupSettled(outcome);
    var page := new MobileChat(storage);
    page.InitialTimerFired();
    shown := page.allMessages;
    current := page.currentQuestion;
  }
}
