/** The Streamlit page script (smart_agent_app.py) as a class: `st.session_state` is an
    object whose keys the script sets and reassigns on every rerun, and the agent
    module's sinks (model calls, table rows, files) are the `Agent` it talks to. Each
    method is proved to do what the step functions of `Orchestrator` describe. */
module SmartAgentApp {
  import opened Wrappers
  import opened Timestamps
  import opened SmartAgent
  import opened Orchestrator

  /** The session keys of `st.session_state`; `present` is whether `session_id` is set. */
  class SessionState {
    const agent: Agent
    var present: bool
    var sessionId: string
    var chatHistory: seq<Turn>
    var extractedData: Option<HiringData>
    var proposal: Option<string>
    var initialDone: bool

    /** The session as a value, absent before the set-up guard first runs. */
    function Snapshot(): (s: Option<Session>)
      reads this
      ensures s.Some? <==> present
      ensures present ==> s.value.id == sessionId && s.value.history == chatHistory
                          && s.value.extracted == extractedData && s.value.proposal == proposal
                          && s.value.initialDone == initialDone
    {
      if present then Some(Session(sessionId, chatHistory, extractedData, proposal, initialDone))
      else None
    }

    /** A new browser session: no key is set yet. */
    constructor (agent: Agent)
      ensures this.agent == agent && Snapshot() == None
    {
      this.agent := agent;
      present := false;
      sessionId, chatHistory, extractedData, proposal, initialDone := "", [], None, None, false;
    }

    /** The set-up guard: the keys are set, with a fresh id and an empty history, only
        when `session_id` is absent. */
    method SetUp(freshId: string)
      modifies this
      ensures Snapshot() == Some(Initialize(old(Snapshot()), freshId))
    {
      if !present {
        present := true;
        sessionId := freshId;
        chatHistory := [];
        extractedData := None;
        proposal := None;
        initialDone := false;
      }
    }

    /** The three model calls of the first text: extract the record, pick the
        service, compose the proposal. */
    method Consult(userInput: string) returns (data: HiringData, text: string)
      modifies agent`calls
      ensures data == ExtractedData(agent.svc, userInput)
      ensures text == ProposalText(agent.svc, data, RecommendedService(agent.svc, data))
      ensures agent.calls == old(agent.calls) + [ExtractRequest(userInput), RecommendRequest(data),
                                                 ProposalRequest(data, RecommendedService(agent.svc, data))]
    {
      data := agent.ExtractHiringInfo(userInput);
      var service := agent.RecommendServiceGpt(data);
      text := agent.GenerateProposal(data, service);
    }

    /** The first text: extract, recommend, compose, log, then append both turns. */
    method ProposeFor(userInput: string, now: DateTime)
      requires ValidDateTime(now) && present
      modifies this, agent
      ensures var o := Orchestrator.Propose(agent.svc, old(Snapshot()).value, userInput, now);
        && Snapshot() == Some(o.session)
        && agent.calls == old(agent.calls) + o.calls
        && agent.rows == old(agent.rows) + o.rows
        && agent.files == old(agent.files)
    {
      ghost var o := Orchestrator.Propose(agent.svc, Snapshot().value, userInput, now);
      var data, text := Consult(userInput);
      assert o.session.extracted == Some(data) && o.session.proposal == Some(text);
      extractedData, proposal := Some(data), Some(text);
      agent.LogStructuredData(sessionId, now, data);
      chatHistory := chatHistory + [Turn(User, userInput), Turn(Assistant, text)];
      initialDone := true;
    }

    /** A later text, once the proposal is out: append it, ask for a reply on the
        transcript, append the reply, and save the transcript when the text holds a
        closure keyword. */
    method FollowUpFor(userInput: string, now: DateTime)
      requires ValidDateTime(now) && present && initialDone
      modifies this, agent
      ensures var o := Orchestrator.FollowUp(agent.svc, old(Snapshot()).value, userInput, now);
        && Snapshot() == Some(o.session)
        && agent.calls == old(agent.calls) + o.calls
        && agent.rows == old(agent.rows)
        && agent.files == old(agent.files) + o.files
    {
      ghost var s := Snapshot().value;
      chatHistory := chatHistory + [Turn(User, userInput)];
      var fullChat := Transcript(chatHistory);
      var reply := agent.GenerateFollowUpLoop(userInput, proposal, fullChat);
      assert reply == FollowUpAnswer(agent.svc, s, userInput);
      chatHistory := chatHistory + [Turn(Assistant, reply)];
      assert chatHistory == s.history + [Turn(User, userInput), Turn(Assistant, reply)];
      if IsClosing(userInput) {
        agent.SaveConversationLog(now, Lines(chatHistory));
      }
    }

    /** One run of the page script. The new session and everything sent, inserted and
        written are those of `Orchestrator.Rerun`, and a well-formed session stays
        well formed. */
    method Rerun(freshId: string, chatInput: Option<string>, now: DateTime)
      requires ValidDateTime(now)
      modifies this, agent
      ensures var o := Orchestrator.Rerun(agent.svc, old(Snapshot()), freshId, chatInput, now);
        && Snapshot() == Some(o.session)
        && agent.calls == old(agent.calls) + o.calls
        && agent.rows == old(agent.rows) + o.rows
        && agent.files == old(agent.files) + o.files
      ensures old(Snapshot()).Some? && Wellformed(old(Snapshot()).value) ==> Wellformed(Snapshot().value)
      ensures old(Snapshot()).None? ==> Wellformed(Snapshot().value)
    {
      ghost var page := Snapshot();
      if page.None? || Wellformed(page.value) {
        RerunPreservesWellformed(agent.svc, page, freshId, chatInput, now);
      }
      SetUp(freshId);
      if chatInput.Some? && chatInput.value != "" {
        if !initialDone {
          ProposeFor(chatInput.value, now);
        } else {
          FollowUpFor(chatInput.value, now);
        }
      }
    }
  }
}
