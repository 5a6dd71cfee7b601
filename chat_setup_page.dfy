/** The setup page (frontend/src/pages/ChatSetup.js): it posts the interview
    set-up and, on success, hands the opening question to the chat page
    through the tab's storage. */
module ChatSetupPage {
  import opened Wrappers
  import opened Browser

  /** The JSON body posted to `/initialize_interview`. */
  datatype SetupRequest = SetupRequest(context: string, background: string, goals: string)

  /** The storage a settled set-up request leaves behind: on status 200 the
      opening question and then the completion flag are written; any other
      outcome writes nothing. */
  function StorageAfterSetup(items: map<string, string>, outcome: HttpOutcome): (r: map<string, string>)
    ensures IsOk(outcome) ==> r.Keys == items.Keys + {InitialMessageKey, SetupCompleteKey}
    ensures IsOk(outcome) ==> r[SetupCompleteKey] == "true" && r[InitialMessageKey] == Stored(outcome.field)
    ensures IsOk(outcome) ==> forall k :: k in items && k != InitialMessageKey && k != SetupCompleteKey ==> r[k] == items[k]
    ensures !IsOk(outcome) ==> r == items
  {
    if IsOk(outcome) then items[InitialMessageKey := Stored(outcome.field)][SetupCompleteKey := "true"]
    else items
  }

  class ChatSetup {
    const storage: TabStorage
    var context: string
    var background: string
    var goals: string
    var isLoading: bool
    var navigatedTo: Option<string>

    constructor (storage: TabStorage)
      ensures this.storage == storage
      ensures context == [] && background == [] && goals == []
      ensures !isLoading && navigatedTo == None
    {
      this.storage := storage;
      context := [];
      background := [];
      goals := [];
      isLoading := false;
      navigatedTo := None;
    }

    /** Typing into the three fields. */
    method Edit(context: string, background: string, goals: string)
      modifies this
      ensures this.context == context && this.background == background && this.goals == goals
      ensures isLoading == old(isLoading) && navigatedTo == old(navigatedTo)
    {
      this.context := context;
      this.background := background;
      this.goals := goals;
    }

    /** `handleSetupSubmit` up to its request: loading starts, and the
        request carries the three fields exactly as entered. */
    method HandleSetupSubmit() returns (request: SetupRequest)
      modifies this
      ensures isLoading
      ensures request == SetupRequest(context, background, goals)
      ensures context == old(context) && background == old(background) && goals == old(goals)
      ensures navigatedTo == old(navigatedTo)
    {
      isLoading := true;
      request := SetupRequest(context, background, goals);
    }

    /** The rest of `handleSetupSubmit`, once the request settles: on status
        200 the two keys are written and the page navigates to the chat;
        otherwise neither happens. Loading ends in every case. */
    method SetupSettled(outcome: HttpOutcome)
      modifies this, storage
      ensures !isLoading
      ensures storage.items == StorageAfterSetup(old(storage.items), outcome)
      ensures IsOk(outcome) ==> navigatedTo == Some(ChatRoute)
      ensures !IsOk(outcome) ==> navigatedTo == old(navigatedTo)
      ensures context == old(context) && background == old(background) && goals == old(goals)
    {
      if !Rejects(outcome) {
        if outcome.status == 200 {
          storage.SetItem(InitialMessageKey, Stored(outcome.field));
          storage.SetItem(SetupCompleteKey, "true");
          navigatedTo := Some(ChatRoute);
        }
      }
      isLoading := false;
    }
  }
}
