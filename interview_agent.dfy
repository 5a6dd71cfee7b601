/** The interviewer of agents.py: a conversation-state tracker driven by each
    user message, the extraction of the question from a model reply, and the
    manager that records every exchange. The language model is a parameter:
    a function from the prompt messages to the reply text. */
module InterviewAgents {
  import opened Wrappers
  import opened Text

  // ---------------------------------------------------------------------------
  // Conversation state

  /** The keys of `conversation_state`, as one value. */
  datatype ConversationState = ConversationState(
    currentTopic: Option<string>,
    attemptedTopics: set<string>,
    failedTopics: set<string>,
    askedQuestions: set<string>,
    shortAnswerCount: int,
    topicAttemptCount: int)

  /** The state a new agent starts in. */
  const InitialState := ConversationState(None, {}, {}, {}, 0, 0)

  /** Python truthiness of `current_topic`: set, and not the empty string. */
  predicate HasTopic(topic: Option<string>) {
    topic.Some? && topic.value != ""
  }

  /** The current topic as a set: empty when there is none to record. */
  function TopicSet(topic: Option<string>): set<string> {
    if HasTopic(topic) then {topic.value} else {}
  }

  const StruggleSignals: seq<string> := [
    "i dont know", "not sure", "confused", "dont understand",
    "what do you mean", "??", "why", "can we move on",
    "different topic", "next question"
  ]

  /** At most three whitespace-separated words. */
  predicate IsShortAnswer(userMessage: string) {
    |Words(userMessage)| <= 3
  }

  /** The lower-cased message contains one of the struggle signals. */
  predicate IsStruggling(userMessage: string) {
    exists i :: 0 <= i < |StruggleSignals| && Contains(Lower(userMessage), StruggleSignals[i])
  }

  /** The short-answer count once the message has been classified. */
  function CountedShortAnswers(s: ConversationState, userMessage: string): int {
    if IsShortAnswer(userMessage) then s.shortAnswerCount + 1 else 0
  }

  /** The message makes the agent drop the current topic. */
  predicate ChangesTopic(s: ConversationState, userMessage: string) {
    IsStruggling(userMessage) || CountedShortAnswers(s, userMessage) >= 2
  }

  /** The state after `_update_state(userMessage)`: classify the answer,
      drop the topic on a struggle signal or a second short answer in a row,
      and count one more attempt at a topic still current, abandoning it at
      the third. */
  function Step(s: ConversationState, userMessage: string): (r: ConversationState)
    // only the two counters, the current topic and the failed topics change
    ensures r.attemptedTopics == s.attemptedTopics && r.askedQuestions == s.askedQuestions
    // the failed topics only grow, and only by the topic that was current
    ensures s.failedTopics <= r.failedTopics <= s.failedTopics + TopicSet(s.currentTopic)
    // no topic is ever chosen: the current one stays or is dropped
    ensures r.currentTopic == None || r.currentTopic == s.currentTopic
    // a long answer clears the short-answer count
    ensures !IsShortAnswer(userMessage) ==> r.shortAnswerCount == 0
    // a short answer with no reason to change topic counts one more
    ensures IsShortAnswer(userMessage) && !ChangesTopic(s, userMessage) ==>
              r.shortAnswerCount == s.shortAnswerCount + 1
    // the short-answer count stays at most 1, since reaching 2 resets it
    ensures 0 <= s.shortAnswerCount <= 1 ==> 0 <= r.shortAnswerCount <= 1
    // the attempt count stays below 3
    ensures 0 <= s.topicAttemptCount < 3 ==> 0 <= r.topicAttemptCount < 3
    // dropping the topic fails it and resets both counters
    ensures ChangesTopic(s, userMessage) ==>
              && r.currentTopic == None
              && r.failedTopics == s.failedTopics + TopicSet(s.currentTopic)
              && r.shortAnswerCount == 0
              && r.topicAttemptCount == 0
    // otherwise a current topic gets one more attempt, and fails at the third
    ensures !ChangesTopic(s, userMessage) && HasTopic(s.currentTopic) ==>
              if s.topicAttemptCount + 1 >= 3 then
                r.currentTopic == None && r.topicAttemptCount == 0
                && r.failedTopics == s.failedTopics + TopicSet(s.currentTopic)
              else
                r.currentTopic == s.currentTopic && r.topicAttemptCount == s.topicAttemptCount + 1
                && r.failedTopics == s.failedTopics
    // with no current topic, nothing is attempted and nothing fails
    ensures !HasTopic(s.currentTopic) ==>
              r.failedTopics == s.failedTopics
              && r.topicAttemptCount == (if ChangesTopic(s, userMessage) then 0 else s.topicAttemptCount)
  {
    var short := CountedShortAnswers(s, userMessage);
    var s1 :=
      if ChangesTopic(s, userMessage) then
        s.(currentTopic := None, failedTopics := s.failedTopics + TopicSet(s.currentTopic),
           topicAttemptCount := 0, shortAnswerCount := 0)
      else
        s.(shortAnswerCount := short);
    if HasTopic(s1.currentTopic) then
      if s1.topicAttemptCount + 1 >= 3 then
        s1.(currentTopic := None, failedTopics := s1.failedTopics + TopicSet(s1.currentTopic),
            topicAttemptCount := 0)
      else
        s1.(topicAttemptCount := s1.topicAttemptCount + 1)
    else
      s1
  }

  /** The state after `_update_state` has seen each message in turn. */
  function Run(s: ConversationState, messages: seq<string>): ConversationState
    decreases |messages|
  {
    if messages == [] then s else Run(Step(s, messages[0]), messages[1..])
  }

  /** No topic, no failed topic, no attempt, and a short-answer count of at
      most 1. */
  predicate Topicless(s: ConversationState) {
    s.currentTopic == None && s.failedTopics == {} && s.topicAttemptCount == 0
    && 0 <= s.shortAnswerCount <= 1
  }

  lemma {:induction false} RunKeepsTopicless(s: ConversationState, messages: seq<string>)
    requires Topicless(s)
    ensures Topicless(Run(s, messages))
    ensures Run(s, messages).askedQuestions == s.askedQuestions
    decreases |messages|
  {
    if messages != [] {
      RunKeepsTopicless(Step(s, messages[0]), messages[1..]);
    }
  }

  /** Nothing in the agent ever sets a current topic, so from the initial
      state no sequence of messages fails a topic or counts an attempt. */
  lemma NeverChoosesTopic(messages: seq<string>)
    ensures Topicless(Run(InitialState, messages))
  {
    RunKeepsTopicless(InitialState, messages);
  }

  // ---------------------------------------------------------------------------
  // The question in a reply

  predicate IsTerminator(c: char) {
    c == '.' || c == '!' || c == '?'
  }

  /** `text[p..e]` is a match of the regular expression `[^.!?]*\?`. */
  predicate MatchAt(text: string, p: int, e: int) {
    0 <= p < e <= |text| && text[e - 1] == '?'
    && forall k :: p <= k < e - 1 ==> !IsTerminator(text[k])
  }

  /** A match starting at `p` can end in one place only: at the first `?`. */
  lemma MatchEndUnique(text: string, p: int, e1: int, e2: int)
    requires MatchAt(text, p, e1) && MatchAt(text, p, e2)
    ensures e1 == e2
  {
  }

  /** The first match of `[^.!?]*\?` from position `i` on, as the pair of its
      start and end; `start` is where a match reaching `i` would begin. */
  function QuestionSpan(text: string, i: nat, start: nat): (span: Option<(nat, nat)>)
    requires start <= i <= |text|
    decreases |text| - i
  {
    if i == |text| then None
    else if text[i] == '?' then Some((start, i + 1))
    else if text[i] == '.' || text[i] == '!' then QuestionSpan(text, i + 1, i + 1)
    else QuestionSpan(text, i + 1, start)
  }

  /** The scan's invariant rules out any match starting before `start`. */
  lemma NoEarlierMatch(text: string, i: nat, start: nat, p: int, e: int)
    requires start <= i <= |text|
    requires '?' !in text[..i]
    requires start == 0 || text[start - 1] == '.' || text[start - 1] == '!'
    requires p < start
    ensures !MatchAt(text, p, e)
  {
  }

  lemma {:induction false} QuestionSpanIsFirstMatch(text: string, i: nat, start: nat)
    requires start <= i <= |text|
    requires '?' !in text[..i]
    requires start == 0 || text[start - 1] == '.' || text[start - 1] == '!'
    requires forall k :: start <= k < i ==> !IsTerminator(text[k])
    ensures QuestionSpan(text, i, start).None? <==> '?' !in text
    ensures QuestionSpan(text, i, start).Some? ==>
              var (p, e) := QuestionSpan(text, i, start).value;
              MatchAt(text, p, e) && forall p', e' :: 0 <= p' < p ==> !MatchAt(text, p', e')
    decreases |text| - i
  {
    if i == |text| {
      assert text[..i] == text;
    } else if text[i] == '?' {
      assert text[i] in text;
      forall p', e' | 0 <= p' < start ensures !MatchAt(text, p', e') {
        NoEarlierMatch(text, i, start, p', e');
      }
    } else {
      assert text[..i + 1] == text[..i] + [text[i]];
      if text[i] == '.' || text[i] == '!' {
        QuestionSpanIsFirstMatch(text, i + 1, i + 1);
      } else {
        QuestionSpanIsFirstMatch(text, i + 1, start);
      }
    }
  }

  /** A character that is not whitespace survives stripping. */
  lemma StripKeeps(s: string, k: int)
    requires 0 <= k < |s| && !IsSpace(s[k])
    ensures s[k] in Strip(s)
  {
    var i := StripSlice(s);
    var r := Strip(s);
    assert r[k - i] == s[k];
  }

  /** `_extract_question`: the first match of `[^.!?]*\?` in the reply,
      stripped, or None when the reply holds no question mark. */
  function ExtractQuestion(text: string): (q: Option<string>)
    ensures q.None? <==> '?' !in text
    ensures q.Some? ==> '?' in q.value
  {
    QuestionSpanIsFirstMatch(text, 0, 0);
    match QuestionSpan(text, 0, 0)
    case None => None
    case Some((p, e)) =>
      StripKeeps(text[p..e], e - 1 - p);
      Some(Strip(text[p..e]))
  }

  /** What `re.findall(...)[0].strip()` returns: the leftmost match of the
      pattern (which, starting there, can end in one place only), stripped. */
  lemma ExtractQuestionIsFirstMatch(text: string, p: int, e: int)
    requires MatchAt(text, p, e)
    requires forall p', e' :: 0 <= p' < p ==> !MatchAt(text, p', e')
    ensures ExtractQuestion(text) == Some(Strip(text[p..e]))
  {
    QuestionSpanIsFirstMatch(text, 0, 0);
    assert text[e - 1] in text;
    var (p0, e0) := QuestionSpan(text, 0, 0).value;
    MatchEndUnique(text, p, e, e0);
  }

  /** The asked questions after a reply: its question, lower-cased, is added
      when there is one. The `if question:` test of `generate_response`
      never fails, since an extracted question holds a question mark. */
  function RecordQuestion(asked: set<string>, reply: string): (r: set<string>)
    ensures ExtractQuestion(reply).None? ==> r == asked
    ensures ExtractQuestion(reply).Some? ==> r == asked + {Lower(ExtractQuestion(reply).value)}
  {
    match ExtractQuestion(reply)
    case None => asked
    case Some(q) => if q != "" then asked + {Lower(q)} else asked
  }

  // ---------------------------------------------------------------------------
  // Prompts and the agent

  /** The data each prompt message carries; the prose around it is not
      modelled. */
  datatype PromptMessage =
    | SystemPrompt(failedTopics: set<string>, askedQuestions: set<string>,
                   topicAttemptCount: int, shortAnswerCount: int)
    | ContextPrompt(context: string, goals: string, additionalInfo: string, userMessage: string,
                    askedQuestions: set<string>, failedTopics: set<string>)

  /** The two messages `generate_response` sends, built from the state after
      the update. */
  function Prompt(s: ConversationState, userMessage: string, context: map<string, string>): (r: seq<PromptMessage>)
    ensures |r| == 2 && r[0].SystemPrompt? && r[1].ContextPrompt?
    ensures r[0].failedTopics == s.failedTopics == r[1].failedTopics
    ensures r[0].askedQuestions == s.askedQuestions == r[1].askedQuestions
    ensures r[0].topicAttemptCount == s.topicAttemptCount && r[0].shortAnswerCount == s.shortAnswerCount
    ensures r[1].userMessage == userMessage
    ensures "context" in context ==> r[1].context == context["context"]
    ensures "context" !in context ==> r[1].context == ""
    ensures "goals" in context ==> r[1].goals == context["goals"]
    ensures "goals" !in context ==> r[1].goals == ""
    ensures "additional_context" in context ==> r[1].additionalInfo == context["additional_context"]
    ensures "additional_context" !in context ==> r[1].additionalInfo == ""
  {
    [ SystemPrompt(s.failedTopics, s.askedQuestions, s.topicAttemptCount, s.shortAnswerCount),
      ContextPrompt(Get(context, "context"), Get(context, "goals"), Get(context, "additional_context"),
                    userMessage, s.askedQuestions, s.failedTopics) ]
  }

  class InterviewAgent {
    const name: string
    const role: string
    var currentTopic: Option<string>
    var attemptedTopics: set<string>
    var failedTopics: set<string>
    var askedQuestions: set<string>
    var shortAnswerCount: int
    var topicAttemptCount: int

    function State(): ConversationState
      reads this
    {
      ConversationState(currentTopic, attemptedTopics, failedTopics, askedQuestions,
                        shortAnswerCount, topicAttemptCount)
    }

    /** The counters stay within the bounds `_update_state` keeps. */
    ghost predicate Valid()
      reads this
    {
      0 <= shortAnswerCount <= 1 && 0 <= topicAttemptCount < 3
    }

    constructor (name: string, role: string)
      ensures this.name == name && this.role == role
      ensures Valid() && State() == InitialState
    {
      this.name := name;
      this.role := role;
      currentTopic := None;
      attemptedTopics := {};
      failedTopics := {};
      askedQuestions := {};
      shortAnswerCount := 0;
      topicAttemptCount := 0;
    }

    /** `_update_state`. */
    method UpdateState(userMessage: string)
      requires Valid()
      modifies this
      ensures Valid()
      ensures State() == Step(old(State()), userMessage)
    {
      var words := Words(userMessage);
      var isShortAnswer := |words| <= 3;
      if isShortAnswer {
        shortAnswerCount := shortAnswerCount + 1;
      } else {
        shortAnswerCount := 0;
      }

      var isStruggling := IsStruggling(userMessage);

      if isStruggling || shortAnswerCount >= 2 {
        if HasTopic(currentTopic) {
          failedTopics := failedTopics + {currentTopic.value};
        }
        currentTopic := None;
        topicAttemptCount := 0;
        shortAnswerCount := 0;
      }

      if HasTopic(currentTopic) {
        topicAttemptCount := topicAttemptCount + 1;
        if topicAttemptCount >= 3 {
          failedTopics := failedTopics + {currentTopic.value};
          currentTopic := None;
          topicAttemptCount := 0;
        }
      }
    }

    /** `generate_response`: update the state, ask the model with the updated
        state in the prompt, remember the reply's question, return the reply. */
    method GenerateResponse(userMessage: string, context: map<string, string>,
                            llm: seq<PromptMessage> -> string)
      returns (response: string)
      requires Valid()
      modifies this
      ensures Valid()
      ensures var updated := Step(old(State()), userMessage);
              && response == llm(Prompt(updated, userMessage, context))
              && State() == updated.(askedQuestions := RecordQuestion(updated.askedQuestions, response))
    {
      UpdateState(userMessage);
      ghost var updated := State();
      var messages := Prompt(State(), userMessage, context);
      response := llm(messages);
      var question := ExtractQuestion(response);
      if question.Some? && question.value != "" {
        askedQuestions := askedQuestions + {Lower(question.value)};
      }
      assert askedQuestions == RecordQuestion(updated.askedQuestions, response);
    }
  }

  /** One recorded turn of `conversation_history`. */
  datatype Exchange = Exchange(user: string, agent: string)

  class InterviewManager {
    const context: map<string, string>
    const agent: InterviewAgent
    var conversationHistory: seq<Exchange>

    ghost predicate Valid()
      reads this, agent
    {
      agent.Valid()
    }

    constructor (context: map<string, string>)
      ensures Valid() && fresh(agent)
      ensures this.context == context && conversationHistory == []
      ensures agent.name == "Interviewer" && agent.role == "Empathetic Conversation Partner"
      ensures agent.State() == InitialState
    {
      this.context := context;
      agent := new InterviewAgent("Interviewer", "Empathetic Conversation Partner");
      conversationHistory := [];
    }

    /** `chat`: one reply from the agent, recorded as exactly one exchange. */
    method Chat(userMessage: string, llm: seq<PromptMessage> -> string) returns (response: string)
      requires Valid()
      modifies this, agent
      ensures Valid()
      ensures conversationHistory == old(conversationHistory) + [Exchange(userMessage, response)]
      ensures var updated := Step(old(agent.State()), userMessage);
              && response == llm(Prompt(updated, userMessage, context))
              && agent.State() == updated.(askedQuestions := RecordQuestion(updated.askedQuestions, response))
    {
      response := agent.GenerateResponse(userMessage, context, llm);
      conversationHistory := conversationHistory + [Exchange(userMessage, response)];
    }
  }
}
