/** What the web pages share: the tab's `sessionStorage`, JavaScript
    truthiness of the values read from it, the messages a page shows, and the
    outcomes of the requests a page makes through axios. */
module Browser {
  import opened Wrappers

  /** JavaScript truthiness of a string that may be `null` or `undefined`:
      only a present, non-empty string is truthy. */
  predicate Truthy(v: Option<string>)
    // null, undefined and the empty string are falsy
    ensures v.None? ==> !Truthy(v)
    ensures v == Some([]) ==> !Truthy(v)
    ensures v.Some? && |v.value| > 0 ==> Truthy(v)
  {
    v.Some? && v.value != []
  }

  /** How React renders a text that may be `undefined`: as nothing. The
      text shown is empty exactly when the value is not truthy, and is the
      value itself when it is. */
  function Rendered(v: Option<string>): (r: string)
    ensures r == [] <==> !Truthy(v)
    ensures Truthy(v) ==> r == v.value
  {
    if v.Some? then v.value else []
  }

  /** How `sessionStorage.setItem` stores a value that may be `undefined`:
      converted to a string, so `undefined` becomes the text "undefined". */
  function Stored(v: Option<string>): (r: string)
    ensures v.Some? ==> r == v.value
    // what is read back is truthy unless an empty string was stored
    ensures Truthy(Some(r)) <==> v.None? || Truthy(v)
  {
    if v.Some? then v.value else "undefined"
  }

  /** The tab's `sessionStorage`: string keys to string values. */
  class TabStorage {
    var items: map<string, string>

    constructor (items: map<string, string>)
      ensures this.items == items
    {
      this.items := items;
    }

    /** `getItem`: the value, or `null` when the key is absent. */
    function GetItem(key: string): (v: Option<string>)
      reads this
      ensures v.Some? <==> key in items
      ensures key in items ==> v == Some(items[key])
    {
      if key in items then Some(items[key]) else None
    }

    method SetItem(key: string, value: string)
      modifies this
      ensures items == old(items)[key := value]
    {
      items := items[key := value];
    }

    method RemoveItem(key: string)
      modifies this
      ensures items == old(items) - {key}
    {
      items := items - {key};
    }
  }

  const SetupCompleteKey := "setupComplete"
  const InitialMessageKey := "initialMessage"
  const SetupRoute := "/chat-setup"
  const ChatRoute := "/chat"

  /** One entry of a page's transcript. */
  datatype Message = Message(text: string, isUser: bool, isWelcome: bool, isError: bool)

  function UserMessage(text: string): Message {
    Message(text, true, false, false)
  }

  function BotMessage(text: string): Message {
    Message(text, false, false, false)
  }

  /** How a request made through axios settles: the server answered with a
      status and, in its JSON body, a `message` (or `text`) field that may be
      missing; or no answer came. */
  datatype HttpOutcome =
    | Responded(status: int, field: Option<string>)
    | NetworkFailed

  /** axios rejects its promise unless the server answered with a status
      from 200 to 299. */
  predicate Rejects(outcome: HttpOutcome) {
    outcome.NetworkFailed? || !(200 <= outcome.status < 300)
  }

  /** The page's check `response.status === 200` on a resolved request. */
  predicate IsOk(outcome: HttpOutcome) {
    outcome.Responded? && outcome.status == 200
  }

  /** A resolved request with a 2xx status other than 200. */
  predicate IsOtherSuccess(outcome: HttpOutcome) {
    !Rejects(outcome) && !IsOk(outcome)
  }
}
