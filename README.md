# Research interview assistant — a Dafny model

This project models the deterministic core of a research-interview assistant.
The assistant has three parts.

- **The interviewer agent** (agents.py). It keeps a conversation state for each
  user message: a short-answer count, a topic-attempt count, the current topic,
  the failed topics and the questions already asked. It takes the question out
  of each model reply, and a manager records every exchange.
- **The backend** (app.py). A panel of three research agents (Lead Interviewer,
  Completeness Analyst, Depth Explorer) answers each user message in turn. The
  backend cleans the `[Name]:` prefix off each reply, keeps a discussion
  history and renders its last three rounds. It serves `/initialize_interview`
  and `/chat`, and also a page of its own whose script sends messages behind an
  `isProcessing` gate.
- **The React pages**. ChatSetup posts the interview set-up and hands the
  opening question to the chat pages through the tab's `sessionStorage`. Chat
  (desktop) and MobileChat keep an append-only transcript. They redirect to
  the set-up page when it has not completed, read and clear the opening
  question, and toggle voice recording.

The language model is a parameter everywhere: a function from the messages
sent to it to the text of its reply. Network, microphone and transcription
results are parameters too. Each asynchronous handler is split at its
`await`: one method runs the part before the request and returns what it
sends; another runs the continuation, with the outcome as a parameter.
Timers are methods of their own.

Files:

- `wrappers.dfy`: `Option`.
- `text.dfy` (`Text`): Python's `strip`, `split`, `lower`, `in` and `join`,
  and JavaScript's `trim`, each with its reference properties.
- `interview_agent.dfy` (`InterviewAgents`): agents.py.
- `group_discussion.dfy` (`GroupDiscussions`): the backend in app.py.
- `inline_chat.dfy` (`InlineChat`): the script of the page app.py serves.
- `browser.dfy` (`Browser`): tab storage, JavaScript truthiness, messages,
  and how axios settles.
- `chat_page.dfy`, `mobile_chat_page.dfy`, `chat_setup_page.dfy`: the three
  pages.
- `handoff.dfy` (`Handoff`): set-up followed by chat, across pages.

## Model

| member | source | states |
|---|---|---|
| Text.Strip | agents.py:50 | the result begins and ends with non-whitespace and is no longer than the input |
| Text.StripSlice | app.py:277-279 | what `strip()` keeps is one contiguous slice of the input, and everything it drops is whitespace |
| Text.StripUnique | app.py:277-279 | stripping a stripped core between two runs of whitespace gives back exactly that core, so Strip is determined by the slice property |
| Text.TrimStartSlice | agents.py:50 | the leading trim keeps a suffix and drops only whitespace |
| Text.TrimEndSlice | agents.py:50 | the trailing trim keeps a prefix and drops only whitespace |
| Text.Words | agents.py:55 | every word of `split()` is non-empty and holds no whitespace |
| Text.WordsCount | agents.py:55-56 | the number of words of `split()` equals the number of word starts, counted independently |
| Text.WordsConcat | agents.py:55 | the words, put back together, are exactly the non-whitespace characters of the message |
| Text.Lower | agents.py:70 | `lower()` keeps the length and lower-cases each character in place |
| Text.Contains | agents.py:70 | `signal in message` is never true of a signal longer than the message, and always true of the empty signal |
| Text.ContainsAt | agents.py:70 | `signal in message` holds exactly when the signal occurs at some position of the message |
| InterviewAgents.Step | agents.py:53-90 | short answers count up and long ones reset the count; a struggle signal or a second short answer fails the current topic and resets both counters; a current topic fails at its third attempt; the failed topics only grow, and only by the current topic; the short count stays at most 1 and the attempt count below 3 |
| InterviewAgents.RunKeepsTopicless | agents.py:53-90 | from a state with no topic, no failed topic and no attempt, any sequence of messages keeps it so, and leaves the asked questions alone |
| InterviewAgents.NeverChoosesTopic | agents.py:15-22 | from the initial state no sequence of messages sets a topic, fails one or counts an attempt |
| InterviewAgents.ExtractQuestion | agents.py:45-51 | None exactly when the reply has no `?`; otherwise a question that holds a `?` |
| InterviewAgents.QuestionSpanIsFirstMatch | agents.py:48 | the scan finds a match of `[^.!?]*\?` exactly when there is a `?`, and no match starts earlier |
| InterviewAgents.ExtractQuestionIsFirstMatch | agents.py:48-50 | the question is the leftmost match of the regular expression, stripped |
| InterviewAgents.MatchEndUnique | agents.py:48 | a match starting at a given position can end in one place only |
| InterviewAgents.StripKeeps | agents.py:50 | stripping keeps the question mark that ends a match |
| InterviewAgents.Prompt | agents.py:24-34 | two messages, the system prompt then the context prompt, built from the updated state's failed topics, asked questions and counters, carrying the user's message, with each context field carried as sent, or empty when missing |
| InterviewAgents.RecordQuestion | agents.py:39-41 | the asked questions gain the lower-cased question exactly when the reply has one, and are unchanged otherwise |
| InterviewAgents.InterviewAgent.constructor | agents.py:7-22 | a new agent starts in the initial state, with its counters in bounds |
| InterviewAgents.InterviewAgent.UpdateState | agents.py:53-90 | the imperative update leaves exactly the state `Step` describes and keeps the counter bounds |
| InterviewAgents.InterviewAgent.GenerateResponse | agents.py:24-43 | the state is updated first, the model is asked with the updated state, its reply is returned, and its question is recorded |
| InterviewAgents.InterviewManager.constructor | agents.py:141-144 | the manager owns a fresh "Interviewer" agent in the initial state and an empty history |
| InterviewAgents.InterviewManager.Chat | agents.py:146-154 | each call appends exactly one exchange holding the message and the reply |
| GroupDiscussions.Clean | app.py:276-279 | the cleanup never lengthens a reply; it leaves one with neither a `]` nor a leading `:` unchanged, and otherwise returns a stripped text |
| GroupDiscussions.CleanUndoesPrefix | app.py:276-279 | cleaning `"[name]: " + c` gives `c` stripped, when the name holds no `]` |
| GroupDiscussions.FirstBracketClosesName | app.py:276-277 | in a prefixed reply the first `]` is the one closing the name |
| GroupDiscussions.StripAfterColon | app.py:278-279 | after the colon is dropped, the second strip leaves the content stripped |
| GroupDiscussions.StripColonPrefixed | app.py:277 | stripping `": " + c` keeps the colon and the stripped content behind whitespace |
| GroupDiscussions.Respond | app.py:36-43 | the reply starts with the agent's name in brackets and a colon, followed by the model's answer to the persona and the messages |
| GroupDiscussions.Consult | app.py:270-280 | one cleaned reply per agent |
| GroupDiscussions.ConsultPrefix | app.py:270-280 | the replies of the first k agents do not depend on the agents after them |
| GroupDiscussions.ConsultInOrder | app.py:270-280 | the agent at position i is sent the prompt followed by the cleaned replies of the i agents before it |
| GroupDiscussions.FirstReplyIsFirstAgentsAnswer | app.py:271-279 | the first agent is sent only the prompt, and its cleaned reply is the model's answer stripped |
| GroupDiscussions.PanelReplyIsLeadAnswer | app.py:289 | the reply of every round is the Lead Interviewer's answer to the prompt alone, stripped |
| GroupDiscussions.HistoryLinesAppend | app.py:296-299 | the lines of two histories put together are the lines of each, in order |
| GroupDiscussions.HistoryLinesOfEntries | app.py:296-299 | each round renders as a `User:` line followed by its replies |
| GroupDiscussions.LastThree | app.py:296 | `history[-3:]` keeps the last three rounds, or all of them when there are fewer |
| Text.Join | app.py:300 | `"\n".join(lines)` is empty for no lines; otherwise its length is the lines' total length plus one separator between each two neighbours |
| Text.JoinAppend | app.py:300 | joining two non-empty runs of lines gives the join of each with one separator between them, so the lines appear in order with one separator between each two neighbours |
| GroupDiscussions.FormatHistory | app.py:291-300 | the text is "No previous discussion" exactly when the history is empty |
| GroupDiscussions.FormatHistoryShowsLastThree | app.py:295-300 | rounds older than the last three do not show: the text is the lines of the last three rounds joined by newlines |
| GroupDiscussions.GroupDiscussion.constructor | app.py:45-233 | a discussion starts with the three agents in order and an empty history |
| GroupDiscussions.GroupDiscussion.Discuss | app.py:234-289 | one history entry is appended, holding the message and the cleaned replies of all agents in order; the first of them is returned |
| GroupDiscussions.ContextFrom | app.py:454-459 | for each of `context`, `goals` and `additional_context`: a present field is taken as sent, and a missing one defaults to the empty string |
| GroupDiscussions.ContextIgnoresOtherFields | app.py:454-459 | no field but `context`, `goals` and `additional_context` is read, so the pages' `background` field changes nothing |
| GroupDiscussions.Backend.InitializeInterview | app.py:451-475 | a request without a JSON object gives 500 and changes nothing; otherwise the session holds the context, a fresh discussion has one round on the opening message, and the lead reply is returned with 200 |
| GroupDiscussions.Backend.Chat | app.py:697-715 | 400 "Interview not initialized" without a session context or without a discussion; 500 for a body that is not a JSON object; otherwise exactly one round is discussed on the message (empty when absent) and its lead reply returned with 200 |
| InlineChat.ReplyBubbles | app.py:646-670 | at most one bubble and never the user's: the reply when the response is ok and its message truthy, nothing when ok without one, and `"Error: " + reason` on every failure, with the server's `error` or a fixed text when the response is not ok |
| InlineChat.ChatPage.constructor | app.py:612-628 | the page opens on the opening question, with an empty input and no request outstanding |
| InlineChat.ChatPage.SendMessage | app.py:629-645 | a no-op while processing or for blank input; otherwise the trimmed text is appended as the user's bubble and posted, the input is cleared, and the controls are disabled; every user bubble is trimmed and non-empty |
| InlineChat.ChatPage.RequestSettled | app.py:646-679 | the reply bubbles are appended and the page stops processing, re-enabling the controls, whatever the outcome |
| InlineChat.ChatPage.Edit | app.py:617 | typing sets the input and touches nothing else |
| Browser.Truthy | frontend/src/pages/Chat.js:22 | `null`, `undefined` and the empty string are falsy, and any other string is truthy |
| Browser.Rendered | frontend/src/pages/Chat.js:80 | the text shown is empty exactly when the reply's text is not truthy, and is that text when it is |
| Browser.Stored | frontend/src/pages/ChatSetup.js:25 | storing a missing value stores "undefined", which reads back truthy |
| Browser.TabStorage.GetItem | frontend/src/pages/Chat.js:21 | `getItem` gives the stored value, or null exactly when the key is absent |
| Browser.TabStorage.SetItem | frontend/src/pages/ChatSetup.js:25-26 | `setItem` binds the key and keeps the other keys |
| Browser.TabStorage.RemoveItem | frontend/src/pages/Chat.js:31 | `removeItem` drops the key and keeps the other keys |
| ChatPage.ChatReply | frontend/src/pages/Chat.js:79-85 | at most one message and never the user's: the reply on status 200, "Error: Unable to get response" when axios rejects, nothing for another success status |
| ChatPage.Chat.constructor | frontend/src/pages/Chat.js:19-33 | without a truthy `setupComplete` the page navigates to the set-up page with no messages; otherwise a truthy `initialMessage` becomes the only message and is removed from storage |
| ChatPage.Chat.Submit | frontend/src/pages/Chat.js:65-72 | blank input once trimmed changes nothing; otherwise the field is cleared, the untrimmed input is appended as the user's message and posted, and loading starts |
| ChatPage.Chat.HandleMessageSubmit | frontend/src/pages/Chat.js:65-72 | submitting works on the current text of the field |
| ChatPage.Chat.ChatSettled | frontend/src/pages/Chat.js:74-86 | the transcript gains exactly the messages of `ChatReply`, and loading ends in every case |
| ChatPage.Chat.HandleVoiceButton | frontend/src/pages/Chat.js:89-103 | when recording, recording stops; otherwise it starts exactly when the microphone is granted; the flag always shows whether the recorder captures |
| ChatPage.Chat.RecorderStopped | frontend/src/pages/Chat.js:43 | loading starts when the recording is uploaded |
| ChatPage.Chat.TranscriptionSettled | frontend/src/pages/Chat.js:50-61 | a failed upload or a transcript that is not truthy submits and appends nothing; a truthy one fills the field and submits the closed-over text; loading ends in every case |
| ChatPage.Chat.Edit | frontend/src/pages/Chat.js:157 | typing sets the field and touches nothing else |
| MobileChatPage.LastQuestion | frontend/src/pages/MobileChat.js:73-75 | a question of the transcript, or None when the transcript holds no question (LastQuestionIsLatest says which one) |
| MobileChatPage.LastQuestionIsLatest | frontend/src/pages/MobileChat.js:73-75 | the question returned is one after which no question follows, and None comes exactly when the transcript holds no question |
| MobileChatPage.MobileReply | frontend/src/pages/MobileChat.js:87-100 | at most one message, always a question: the reply on status 200, "Connection lost. Please try again." flagged as an error when axios rejects, nothing for another success status |
| MobileChatPage.MobileChat.constructor | frontend/src/pages/MobileChat.js:38-64 | without a truthy `setupComplete` the page navigates to the set-up page and shows nothing; otherwise the welcome is shown first, and a truthy `initialMessage` is removed from storage and scheduled to follow |
| MobileChatPage.MobileChat.HandleNewMessage | frontend/src/pages/MobileChat.js:66-76 | exactly one message is appended and the typing effect starts; the current question changes only for a question, and then to it |
| MobileChatPage.MobileChat.TypingDelayElapsed | frontend/src/pages/MobileChat.js:77-78 | the typing effect stops |
| MobileChatPage.MobileChat.InitialTimerFired | frontend/src/pages/MobileChat.js:56-61 | the scheduled opening question is appended and becomes the current question |
| MobileChatPage.MobileChat.HandleMessage | frontend/src/pages/MobileChat.js:81-86 | the answer is appended as the user's message before it is posted, and the typing effect starts |
| MobileChatPage.MobileChat.ChatSettled | frontend/src/pages/MobileChat.js:86-100 | the transcript gains exactly the messages of `MobileReply`, and an appended message becomes the current question and starts the typing effect |
| MobileChatPage.MobileChat.TranscriptionSettled | frontend/src/pages/MobileChat.js:105-120 | only a truthy transcript is answered; a failed upload or an empty transcript appends nothing |
| MobileChatPage.MobileChat.HandleVoiceButton | frontend/src/pages/MobileChat.js:123-137 | when recording, recording stops; otherwise it starts exactly when the microphone is granted, and stays off on denial; messages and the typing effect are untouched |
| MobileChatPage.MobileChat.SetShowTextInput | frontend/src/pages/MobileChat.js:250 | the keyboard and close buttons show or hide the text field and touch nothing else |
| MobileChatPage.MobileChat.Edit | frontend/src/pages/MobileChat.js:235 | typing sets the field and touches nothing else |
| MobileChatPage.MobileChat.SubmitTextForm | frontend/src/pages/MobileChat.js:217-225 | blank input once trimmed changes nothing; otherwise the field is cleared and hidden, the untrimmed input is appended and posted, and the typing effect starts |
| ChatSetupPage.StorageAfterSetup | frontend/src/pages/ChatSetup.js:23-29 | on status 200 exactly `initialMessage` (the reply's message) and `setupComplete` = "true" are added and every other key is kept; any other outcome leaves storage as it was |
| ChatSetupPage.ChatSetup.constructor | frontend/src/pages/ChatSetup.js:7-10 | the form starts empty and not loading |
| ChatSetupPage.ChatSetup.Edit | frontend/src/pages/ChatSetup.js:49-71 | typing sets the three fields and touches nothing else |
| ChatSetupPage.ChatSetup.HandleSetupSubmit | frontend/src/pages/ChatSetup.js:13-21 | loading starts, and the request carries context, background and goals exactly as entered |
| ChatSetupPage.ChatSetup.SetupSettled | frontend/src/pages/ChatSetup.js:22-33 | storage becomes `StorageAfterSetup`; the page navigates to the chat only on status 200; loading ends in every case |
| Handoff.SetupThenChatTwice | frontend/src/pages/Chat.js:19-33 | after a successful set-up, the first chat page shows the opening question alone (unless it was empty) and a second mount shows nothing |
| Handoff.FailedSetupRedirects | frontend/src/pages/Chat.js:21-25 | after a failed set-up in a fresh tab, the chat page goes back to the set-up page and shows nothing |
| Handoff.SetupThenMobile | frontend/src/pages/MobileChat.js:38-64 | after a successful set-up the mobile page shows the welcome and then the opening question, which becomes the current question |

## Left out

- The language model is an uninterpreted function. The prompt prose (system
  prompts, templates, persona descriptions) is not modelled; only the data
  filled into the prompts is.
- GroupDiscussions.Backend.InitializeInterview: an exception raised inside the
  model call (the 500 response with its `str(e)` text) is not modelled. The
  model always answers.
- GroupDiscussions.Backend.Chat: the same holds for exceptions raised inside
  `discuss`. A failure part-way through a round is not modelled either.
- GroupDiscussions.Backend: there is one client session next to the
  module-level discussion. That discussion is shared by all clients, and
  another client's set-up replaces it; that sharing is not modelled.
- JSON bodies are maps from strings to strings. Non-string JSON values are
  not modelled.
- Text.Strip, Text.Words: whitespace is space and tab through carriage
  return. Python's `strip()` and `split()` also treat the ASCII separators
  \x1c to \x1f and the Unicode whitespace as whitespace, and JavaScript's
  `trim()` the Unicode whitespace; those are not modelled.
- Text.Lower: lower-cases A to Z only. Unicode case mapping is not modelled.
- The routes `/` and `/interview`, the HTML and CSS of the served pages,
  Flask sessions, routing and CORS are not modelled. The `/interview` route
  calls `redirect` and `url_for`, which are never imported.
- MobileChatPage, Handoff.SetupThenMobile: the router of App.js maps `/chat`
  to the desktop page only and mounts MobileChat nowhere. The model treats
  the mobile page as if it were mounted after set-up, as its own code expects.
- The pages have no unmount guard: a reply that settles after the page was
  left is still applied. The model has no notion of unmounting, so every
  continuation runs on a mounted page.
- `/transcribe` has no route in the backend. Its outcome is a parameter of
  the pages' `TranscriptionSettled`.
- planning_agent.py is not part of this model. It evaluates model output and
  otherwise returns a fixed plan.
- `attempted_topics` is never written by agents.py. The model carries it
  unchanged.
- `console.error`, `alert`, focus, scrolling, animations and the media
  recorder's audio are not modelled. The microphone permission and the
  upload outcome are parameters.
- Timers are not modelled as time. The 2000 ms mount timer of the mobile
  page and its 500 ms typing delay are methods that the environment calls
  (`InitialTimerFired`, `TypingDelayElapsed`). Their relative order, and
  overlapping typing delays, are up to the caller.
- ChatPage.Chat.TranscriptionSettled: the text submitted is the
  `currentMessage` value the recorder callback closed over. It is a
  parameter, because which render's value the recorder library keeps is not
  visible here. The model does not claim that the transcript is what gets
  sent.
- ChatPage.Chat.HandleMessageSubmit: the page disables its controls while
  loading. The handler itself has no in-flight gate, and the model does not
  add one.
- The code has no durable store of set-up preferences and no check that
  `context` and `goals` are non-empty. The model has neither.
- The key the pages use for a completed set-up is `setupComplete`.
- Between pages, the opening question travels through `initialMessage`.
- The pages send `background`, but the backend reads `additional_context`,
  so the background never reaches the prompts (`ContextIgnoresOtherFields`).
