/** The backend of app.py: the panel of research agents that answers each
    user message, the cleanup of their replies, the rendering of the recent
    discussion, and the `/initialize_interview` and `/chat` handlers. The
    language model is a parameter: a function from the messages sent to it to
    the text of its reply. */
module GroupDiscussions {
  import opened Wrappers
  import opened Text

  /** The interview set-up kept in the session. */
  datatype InterviewContext = InterviewContext(context: string, goals: string, additionalContext: string)

  /** A research agent; its description is prompt prose and is not modelled. */
  datatype Agent = Agent(name: string, role: string)

  const LeadInterviewer := Agent("Lead Interviewer", "Empathetic Interviewer")
  const CompletenessAnalyst := Agent("Completeness Analyst", "Research Methodology Expert")
  const DepthExplorer := Agent("Depth Explorer", "Qualitative Research Specialist")

  /** The agents of every discussion, in the order they are consulted. */
  const Panel: seq<Agent> := [LeadInterviewer, CompletenessAnalyst, DepthExplorer]

  /** The data filled into the template of one discussion round. */
  datatype DiscussionPrompt = DiscussionPrompt(context: InterviewContext, userMessage: string, previousDiscussion: string)

  /** A message sent to the model. */
  datatype ChatMessage =
    | Persona(agent: Agent)            // the system message naming the agent and its role
    | Human(prompt: DiscussionPrompt)
    | AI(content: string)

  /** The language model: the text of its reply to a list of messages. */
  type Model = seq<ChatMessage> -> string

  // ---------------------------------------------------------------------------
  // Replies and their cleanup

  /** Position of the first `c` in `s`. */
  function IndexOf(s: string, c: char): (k: nat)
    requires c in s
    ensures k < |s| && s[k] == c && c !in s[..k]
    decreases |s|
  {
    if s[0] == c then 0 else 1 + IndexOf(s[1..], c)
  }

  /** The cleanup `discuss` applies to each reply: if there is a `]`, keep
      what follows the first one, stripped; then, if that begins with `:`,
      keep what follows it, stripped. */
  function Clean(response: string): (r: string)
    ensures |r| <= |response|
    // a reply with neither a bracket nor a leading colon is left as it is
    ensures ']' !in response && !StartsWith(response, ":") ==> r == response
    // otherwise the result carries no whitespace at either end
    ensures ']' in response || StartsWith(response, ":") ==> IsStripped(r)
  {
    var afterName := if ']' in response then Strip(response[IndexOf(response, ']') + 1..]) else response;
    if |afterName| > 0 && afterName[0] == ':' then Strip(afterName[1..]) else afterName
  }

  /** Stripping a colon followed by only whitespace leaves the colon. */
  lemma StripColonBeforeSpaces(a: string, b: string)
    requires AllSpace(a) && AllSpace(b)
    ensures Strip(": " + (a + b)) == ":"
  {
    var tail := " " + a + b;
    assert AllSpace(tail);
    assert ": " + (a + b) == [] + ":" + tail;
    StripUnique([], ":", tail);
  }

  /** Stripping a colon followed by text keeps the colon, the whitespace
      after it, and the text up to its trailing whitespace. */
  lemma StripColonBeforeText(a: string, m: string, b: string)
    requires AllSpace(a) && AllSpace(b) && m != [] && IsStripped(m)
    ensures Strip(": " + (a + m + b)) == ":" + (" " + a) + m
  {
    var core := ":" + (" " + a) + m;
    assert IsStripped(core) by {
      assert core[|core| - 1] == m[|m| - 1];
    }
    assert ": " + (a + m + b) == [] + core + b;
    StripUnique([], core, b);
  }

  /** Stripping `": " + c` keeps the colon and the stripped text of `c`
      behind some whitespace. */
  lemma StripColonPrefixed(content: string) returns (gap: string)
    ensures AllSpace(gap)
    ensures Strip(": " + content) == ":" + gap + Strip(content)
  {
    var i := StripSlice(content);
    var m := Strip(content);
    var a := content[..i];
    var b := content[i + |m|..];
    if m == [] {
      assert content == a + b;
      StripColonBeforeSpaces(a, b);
      gap := [];
    } else {
      assert content == a + m + b;
      StripColonBeforeText(a, m, b);
      gap := " " + a;
    }
  }

  /** What follows a stripped `": " + c` past its colon strips to the
      stripped text of `c`. */
  lemma StripAfterColon(content: string)
    ensures var t := Strip(": " + content);
            |t| > 0 && t[0] == ':' && Strip(t[1..]) == Strip(content)
  {
    var gap := StripColonPrefixed(content);
    var t := Strip(": " + content);
    var m := Strip(content);
    assert t[1..] == gap + m + [];
    StripUnique(gap, m, []);
  }

  /** In a reply of the form `"[name]: " + content` whose name holds no
      `]`, the first `]` is the one closing the name. */
  lemma FirstBracketClosesName(name: string, content: string)
    requires ']' !in name
    ensures var s := "[" + name + "]: " + content;
            ']' in s && IndexOf(s, ']') == |name| + 1 && s[|name| + 2..] == ": " + content
  {
    var s := "[" + name + "]: " + content;
    assert s[|name| + 1] == ']';
  }

  /** Cleaning a reply of the form `"[name]: " + content` gives back the
      content, stripped, provided the name holds no `]`. */
  lemma CleanUndoesPrefix(name: string, content: string)
    ensures ']' !in name ==> Clean("[" + name + "]: " + content) == Strip(content)
  {
    if ']' !in name {
      FirstBracketClosesName(name, content);
      StripAfterColon(content);
    }
  }

  /** `ResearchAgent.generate_response`: the model, sent the agent's persona
      and then the given messages, answers; the reply is prefixed with the
      agent's name in brackets, a prefix the cleanup removes again
      (CleanUndoesPrefix). */
  function Respond(agent: Agent, messages: seq<ChatMessage>, llm: Model): (r: string)
    ensures StartsWith(r, "[" + agent.name + "]: ")
    ensures r[|agent.name| + 4..] == llm([Persona(agent)] + messages)
  {
    "[" + agent.name + "]: " + llm([Persona(agent)] + messages)
  }

  /** The earlier replies as model messages. */
  function AsAI(responses: seq<string>): (ms: seq<ChatMessage>)
    ensures |ms| == |responses|
    ensures forall i :: 0 <= i < |ms| ==> ms[i] == AI(responses[i])
  {
    seq(|responses|, i requires 0 <= i < |responses| => AI(responses[i]))
  }

  /** The cleaned replies of the agents of a round, in order: each agent is
      sent the round's prompt followed by the cleaned replies of all agents
      before it. */
  function Consult(agents: seq<Agent>, prompt: DiscussionPrompt, llm: Model): (rs: seq<string>)
    ensures |rs| == |agents|
    decreases |agents|
  {
    if agents == [] then []
    else
      var earlier := Consult(agents[..|agents| - 1], prompt, llm);
      earlier + [Clean(Respond(agents[|agents| - 1], [Human(prompt)] + AsAI(earlier), llm))]
  }

  lemma {:induction false} ConsultPrefix(agents: seq<Agent>, prompt: DiscussionPrompt, llm: Model, k: nat)
    requires k <= |agents|
    ensures Consult(agents[..k], prompt, llm) == Consult(agents, prompt, llm)[..k]
    decreases |agents|
  {
    if k < |agents| {
      var n := |agents|;
      ConsultPrefix(agents[..n - 1], prompt, llm, k);
      assert agents[..n - 1][..k] == agents[..k];
    } else {
      assert agents[..k] == agents;
    }
  }

  /** Agents are consulted in list order, and the agent at position `i` is
      sent the prompt and the cleaned replies of the `i` agents before it. */
  lemma ConsultInOrder(agents: seq<Agent>, prompt: DiscussionPrompt, llm: Model, i: nat)
    requires i < |agents|
    ensures var rs := Consult(agents, prompt, llm);
            rs[i] == Clean(Respond(agents[i], [Human(prompt)] + AsAI(rs[..i]), llm))
  {
    ConsultPrefix(agents, prompt, llm, i + 1);
    ConsultPrefix(agents, prompt, llm, i);
    assert agents[..i + 1][..i] == agents[..i];
  }

  /** The reply of a discussion is the lead interviewer's: the model's
      answer to the lead's persona and the prompt alone, stripped. */
  lemma PanelReplyIsLeadAnswer(prompt: DiscussionPrompt, llm: Model)
    ensures Consult(Panel, prompt, llm)[0] == Strip(llm([Persona(LeadInterviewer), Human(prompt)]))
  {
    assert ']' !in LeadInterviewer.name;
    FirstReplyIsFirstAgentsAnswer(Panel, prompt, llm);
  }

  /** The first agent is sent only its persona and the prompt, and its
      reply, once cleaned, is the model's answer stripped. */
  lemma FirstReplyIsFirstAgentsAnswer(agents: seq<Agent>, prompt: DiscussionPrompt, llm: Model)
    requires agents != [] && ']' !in agents[0].name
    ensures Consult(agents, prompt, llm)[0] == Strip(llm([Persona(agents[0]), Human(prompt)]))
  {
    ConsultInOrder(agents, prompt, llm, 0);
    var messages := [Persona(agents[0]), Human(prompt)];
    assert [Human(prompt)] + AsAI([]) == [Human(prompt)];
    assert [Persona(agents[0])] + [Human(prompt)] == messages;
    CleanUndoesPrefix(agents[0].name, llm(messages));
  }

  // ---------------------------------------------------------------------------
  // The discussion history

  /** One round of `discussion_history`. */
  datatype HistoryEntry = HistoryEntry(userMessage: string, agentResponses: seq<string>)

  /** Each entry as a `User: ` line followed by one line per agent reply. */
  function HistoryLines(entries: seq<HistoryEntry>): seq<string>
    decreases |entries|
  {
    if entries == [] then []
    else ["User: " + entries[0].userMessage] + entries[0].agentResponses + HistoryLines(entries[1..])
  }

  lemma {:induction false} HistoryLinesAppend(a: seq<HistoryEntry>, b: seq<HistoryEntry>)
    ensures HistoryLines(a + b) == HistoryLines(a) + HistoryLines(b)
    decreases |a|
  {
    if a != [] {
      assert (a + b)[1..] == a[1..] + b;
      HistoryLinesAppend(a[1..], b);
    } else {
      assert a + b == b;
    }
  }

  /** The lines of a history are those of its entries, one after another. */
  lemma HistoryLinesOfEntries(a: seq<HistoryEntry>, e: HistoryEntry)
    ensures HistoryLines(a + [e]) == HistoryLines(a) + ["User: " + e.userMessage] + e.agentResponses
  {
    HistoryLinesAppend(a, [e]);
    assert [e][1..] == [];
  }

  /** Python's `history[-3:]`. */
  function LastThree<T>(s: seq<T>): (r: seq<T>)
    ensures |r| == if |s| < 3 then |s| else 3
    ensures r == s[|s| - |r|..]
  {
    if |s| <= 3 then s else s[|s| - 3..]
  }

  const NoPreviousDiscussion := "No previous discussion"

  /** `_format_discussion_history`: a fixed text when there is no history,
      otherwise the lines of the last three rounds joined by newlines. */
  function FormatHistory(history: seq<HistoryEntry>): (r: string)
    ensures r == NoPreviousDiscussion <==> history == []
  {
    if history == [] then NoPreviousDiscussion
    else
      var lines := HistoryLines(LastThree(history));
      JoinStartsWithFirst(lines, "\n");
      assert Join(lines, "\n")[0] == 'U';
      Join(lines, "\n")
  }

  /** Rounds older than the last three do not show. */
  lemma FormatHistoryShowsLastThree(older: seq<HistoryEntry>, recent: seq<HistoryEntry>)
    requires |recent| == 3
    ensures FormatHistory(older + recent) == Join(HistoryLines(recent), "\n")
    ensures FormatHistory(older + recent) == FormatHistory(recent)
  {
    assert LastThree(older + recent) == recent;
  }

  // ---------------------------------------------------------------------------
  // The discussion

  class GroupDiscussion {
    const context: InterviewContext
    const agents: seq<Agent>
    var discussionHistory: seq<HistoryEntry>

    constructor (context: InterviewContext)
      ensures agents == Panel && this.context == context && discussionHistory == []
    {
      this.context := context;
      agents := Panel;
      discussionHistory := [];
    }

    /** `discuss`: consult every agent in order, record one round holding
        the message and the cleaned replies, and return the lead's reply. */
    method Discuss(userMessage: string, llm: Model) returns (reply: string)
      requires agents != []
      modifies this
      ensures var prompt := DiscussionPrompt(context, userMessage, FormatHistory(old(discussionHistory)));
              var responses := Consult(agents, prompt, llm);
              && discussionHistory == old(discussionHistory) + [HistoryEntry(userMessage, responses)]
              && reply == responses[0]
    {
      var prompt := DiscussionPrompt(context, userMessage, FormatHistory(discussionHistory));
      var agentResponses: seq<string> := [];
      for i := 0 to |agents|
        invariant agentResponses == Consult(agents[..i], prompt, llm)
      {
        var messages := [Human(prompt)];
        if agentResponses != [] {
          messages := messages + AsAI(agentResponses);
        }
        assert messages == [Human(prompt)] + AsAI(agentResponses);
        var response := Clean(Respond(agents[i], messages, llm));
        ghost var next := agents[..i + 1];
        assert next[..|next| - 1] == agents[..i] && next[|next| - 1] == agents[i];
        agentResponses := agentResponses + [response];
      }
      assert agents[..|agents|] == agents;
      discussionHistory := discussionHistory + [HistoryEntry(userMessage, agentResponses)];
      reply := agentResponses[0];
    }
  }

  // ---------------------------------------------------------------------------
  // The JSON handlers

  /** The body of a JSON response. */
  datatype Body =
    | MessageBody(message: string)
    | ErrorBody(error: string)
    | ExceptionBody               // `{'error': str(e)}`; the exception's text is not modelled

  datatype Response = Response(status: int, body: Body)

  const NotInitialized := "Interview not initialized"
  const OpeningMessage := "The interview is starting. What should be our opening question?"

  /** The context `/initialize_interview` builds: each field as sent, or
      empty when absent. */
  function ContextFrom(data: map<string, string>): (c: InterviewContext)
    ensures "context" in data ==> c.context == data["context"]
    ensures "context" !in data ==> c.context == ""
    ensures "goals" in data ==> c.goals == data["goals"]
    ensures "goals" !in data ==> c.goals == ""
    ensures "additional_context" in data ==> c.additionalContext == data["additional_context"]
    ensures "additional_context" !in data ==> c.additionalContext == ""
  {
    InterviewContext(Get(data, "context"), Get(data, "goals"), Get(data, "additional_context"))
  }

  /** No field other than the three is read: a `background` field in
      particular changes nothing. */
  lemma ContextIgnoresOtherFields(data: map<string, string>, key: string, value: string)
    requires key != "context" && key != "goals" && key != "additional_context"
    ensures ContextFrom(data[key := value]) == ContextFrom(data)
  {
  }

  /** The server's state: the session of one client and the module-level
      discussion shared by all. */
  class Backend {
    var session: Option<InterviewContext>     // session['interview_context']
    var groupDiscussion: GroupDiscussion?     // the global group_discussion

    ghost predicate Valid()
      reads this, groupDiscussion
    {
      groupDiscussion != null ==> groupDiscussion.agents == Panel
    }

    constructor ()
      ensures Valid() && session == None && groupDiscussion == null
    {
      session := None;
      groupDiscussion := null;
    }

    /** `/initialize_interview`. `body` is the parsed JSON object, or None
        when the request body is not one (which raises inside the `try`). */
    method InitializeInterview(body: Option<map<string, string>>, llm: Model) returns (response: Response)
      requires Valid()
      modifies this
      ensures Valid()
      ensures body.None? ==>
                && response == Response(500, ExceptionBody)
                && session == old(session) && groupDiscussion == old(groupDiscussion)
      ensures body.Some? ==>
                var context := ContextFrom(body.value);
                var prompt := DiscussionPrompt(context, OpeningMessage, NoPreviousDiscussion);
                var responses := Consult(Panel, prompt, llm);
                && session == Some(context)
                && groupDiscussion != null && fresh(groupDiscussion) && groupDiscussion.context == context
                && groupDiscussion.discussionHistory == [HistoryEntry(OpeningMessage, responses)]
                && response == Response(200, MessageBody(responses[0]))
    {
      if body.None? {
        response := Response(500, ExceptionBody);
        return;
      }
      var data := body.value;
      var context := ContextFrom(data);
      session := Some(context);
      groupDiscussion := new GroupDiscussion(context);
      var initialResponse := groupDiscussion.Discuss(OpeningMessage, llm);
      response := Response(200, MessageBody(initialResponse));
    }

    /** `/chat`: refuse with 400 unless the session holds a context and a
        discussion exists; otherwise discuss the message (empty when absent). */
    method Chat(body: Option<map<string, string>>, llm: Model) returns (response: Response)
      requires Valid()
      modifies groupDiscussion
      ensures Valid()
      ensures session.None? ==>
                response == Response(400, ErrorBody(NotInitialized))
      ensures session.Some? && body.None? ==>
                response == Response(500, ExceptionBody)
      ensures session.Some? && body.Some? && groupDiscussion == null ==>
                response == Response(400, ErrorBody(NotInitialized))
      ensures session.None? || body.None? || groupDiscussion == null ==>
                groupDiscussion == null || unchanged(groupDiscussion)
      ensures session.Some? && body.Some? && groupDiscussion != null ==>
                var userMessage := Get(body.value, "message");
                var prompt := DiscussionPrompt(groupDiscussion.context, userMessage,
                                               FormatHistory(old(groupDiscussion.discussionHistory)));
                var responses := Consult(Panel, prompt, llm);
                && groupDiscussion.discussionHistory
                     == old(groupDiscussion.discussionHistory) + [HistoryEntry(userMessage, responses)]
                && response == Response(200, MessageBody(responses[0]))
    {
      if session.None? {
        response := Response(400, ErrorBody(NotInitialized));
        return;
      }
      if body.None? {
        response := Response(500, ExceptionBody);
        return;
      }
      var userMessage := Get(body.value, "message");
      if groupDiscussion == null {
        response := Response(400, ErrorBody(NotInitialized));
        return;
      }
      var reply := groupDiscussion.Discuss(userMessage, llm);
      response := Response(200, MessageBody(reply));
    }
  }
}
