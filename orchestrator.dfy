/** The session orchestrator of the chat page (smart_agent_app.py) as values: one
    Streamlit rerun maps the session found in `st.session_state` (if any) and the
    submitted text (if any) to the new session and to what was sent to the model,
    inserted into the table and written to disk. */
module Orchestrator {
  import opened Wrappers
  import opened Text
  import opened Timestamps
  import opened SmartAgent

  // ---------------------------------------------------------------------------
  // Turns and the transcript
  // ---------------------------------------------------------------------------

  datatype Role = User | Assistant

  /** The `role` value stored in a `chat_history` entry. */
  function RoleName(role: Role): string {
    match role
    case User => "user"
    case Assistant => "assistant"
  }

  /** A `{"role": ..., "content": ...}` entry of `chat_history`. */
  datatype Turn = Turn(role: Role, content: string)

  /** The role as the transcript shows it. */
  function Label(role: Role): string {
    match role
    case User => "User"
    case Assistant => "Assistant"
  }

  /** The transcript label is the stored role capitalised (`msg['role'].capitalize()`). */
  lemma LabelIsCapitalizedRole(role: Role)
    ensures Label(role) == Capitalize(RoleName(role))
  {
    var name := RoleName(role);
    assert Capitalize(name) == [UpperChar(name[0])] + Lower(name[1..]);
    if role == User {
      assert Lower(name[1..]) == "ser";
    } else {
      assert Lower(name[1..]) == "ssistant";
    }
  }

  /** `f"{msg['role'].capitalize()}: {msg['content']}"`. */
  function Line(t: Turn): string {
    Label(t.role) + ": " + t.content
  }

  /** One line per turn, in history order. */
  function Lines(history: seq<Turn>): (lines: seq<string>)
    ensures |lines| == |history|
    ensures forall k :: 0 <= k < |history| ==> lines[k] == Line(history[k])
  {
    seq(|history|, k requires 0 <= k < |history| => Line(history[k]))
  }

  /** The `full_chat` text: the lines joined with "\n"; empty for an empty history and
      otherwise starting with the first turn's line. */
  function Transcript(history: seq<Turn>): (chat: string)
    ensures |history| == 0 ==> chat == ""
    ensures |history| > 0 ==> Line(history[0]) <= chat
  {
    Join("\n", Lines(history))
  }

  /** No turn's text contains a line break, so each turn is exactly one transcript line. */
  predicate SingleLineTurns(history: seq<Turn>) {
    forall k :: 0 <= k < |history| ==> '\n' !in history[k].content
  }

  /** When every turn is one line of text, the transcript splits back into exactly one
      `Role: content` line per turn, in history order. */
  lemma TranscriptLines(history: seq<Turn>)
    requires |history| > 0 && SingleLineTurns(history)
    ensures Split('\n', Transcript(history)) == Lines(history)
  {
    var lines := Lines(history);
    forall k | 0 <= k < |lines| ensures '\n' !in lines[k] {
      var t := history[k];
      var tag := Label(t.role) + ": ";
      assert '\n' !in tag;
      assert lines[k] == tag + t.content;
    }
    SplitJoin('\n', lines);
  }

  // ---------------------------------------------------------------------------
  // The closure-keyword test
  // ---------------------------------------------------------------------------

  const ClosureKeywords: seq<string> := ["exit", "bye", "thanks", "quit"]

  /** `any(x in user_input.lower() for x in ["exit", "bye", "thanks", "quit"])`. No text
      shorter than the shortest keyword closes. */
  predicate IsClosing(input: string)
    ensures IsClosing(input) ==> |input| >= 3
  {
    ContainsLength(Lower(input), "exit");
    ContainsLength(Lower(input), "bye");
    ContainsLength(Lower(input), "thanks");
    ContainsLength(Lower(input), "quit");
    exists k :: k in ClosureKeywords && Contains(Lower(input), k)
  }

  /** The keyword test holds exactly when some keyword occurs at some position of the
      lower-cased input. */
  lemma IsClosingIff(input: string)
    ensures IsClosing(input) <==>
      exists k, i :: k in ClosureKeywords && OccursAt(Lower(input), k, i)
  {
    forall k | k in ClosureKeywords
      ensures Contains(Lower(input), k) <==> exists i :: OccursAt(Lower(input), k, i)
    {
      ContainsIff(Lower(input), k);
    }
  }

  /** The test ignores letter case: an input and its lower-cased form agree. */
  lemma IsClosingIgnoresCase(input: string)
    ensures IsClosing(input) <==> IsClosing(Lower(input))
  {
    LowerIdempotent(input);
  }

  /** "Thanks, bye!" matches two keywords and is one closing input. */
  lemma ThanksByeCloses()
    ensures Contains(Lower("Thanks, bye!"), "thanks") && Contains(Lower("Thanks, bye!"), "bye")
    ensures IsClosing("Thanks, bye!")
  {
    var l := Lower("Thanks, bye!");
    assert l == "thanks, bye!";
    assert StartsWith(l, "thanks");
    ContainsIff(l, "bye");
    assert OccursAt(l, "bye", 8);
    assert "thanks" in ClosureKeywords;
  }

  // ---------------------------------------------------------------------------
  // The session and one rerun
  // ---------------------------------------------------------------------------

  /** The session keys of `st.session_state` once they are set. */
  datatype Session = Session(
    id: string,
    history: seq<Turn>,
    extracted: Option<HiringData>,
    proposal: Option<string>,
    initialDone: bool)

  /** What one rerun produced: the new session, the message lists sent to the model in
      order, the rows inserted and the files written. */
  datatype Outcome = Outcome(session: Session, calls: seq<seq<Message>>, rows: seq<Row>, files: seq<SavedFile>)

  /** A session that was just set up. */
  function NewSession(id: string): Session {
    Session(id, [], None, None, false)
  }

  /** The set-up guard: the session keys are set only when absent, so an existing
      session (and its id) is never reset. */
  function Initialize(page: Option<Session>, freshId: string): (s: Session)
    ensures page.Some? ==> s == page.value
    ensures page.None? ==> s.id == freshId && s.history == [] && s.extracted == None
                           && s.proposal == None && !s.initialDone
  {
    match page
    case Some(existing) => existing
    case None => NewSession(freshId)
  }

  /** The request a follow-up input sends, for inspection by the lemmas below. */
  function FollowUpCall(s: Session, input: string): seq<Message> {
    FollowUpRequest(input, s.proposal, Transcript(s.history + [Turn(User, input)]))
  }

  /** The first submitted text: extract, recommend, compose, log one row, then append
      the input and the proposal and flip `initialDone`. */
  function Propose(svc: Services, s: Session, input: string, now: DateTime): (o: Outcome)
    requires ValidDateTime(now)
    ensures o.session.id == s.id && o.session.initialDone
    ensures o.session.proposal.Some?
    ensures o.session.history == s.history + [Turn(User, input), Turn(Assistant, o.session.proposal.value)]
    ensures o.session.extracted == Some(ExtractedData(svc, input))
    ensures o.session.proposal == Some(ProposalText(svc, o.session.extracted.value,
                                                    RecommendedService(svc, o.session.extracted.value)))
    ensures o.calls == [ExtractRequest(input), RecommendRequest(o.session.extracted.value),
                        ProposalRequest(o.session.extracted.value, RecommendedService(svc, o.session.extracted.value))]
    ensures o.rows == [StructuredRow(s.id, now, o.session.extracted.value)]
    ensures o.files == []
  {
    var data := ExtractedData(svc, input);
    var service := RecommendedService(svc, data);
    var proposal := ProposalText(svc, data, service);
    Outcome(
      Session(s.id, s.history + [Turn(User, input), Turn(Assistant, proposal)], Some(data), Some(proposal), true),
      [ExtractRequest(input), RecommendRequest(data), ProposalRequest(data, service)],
      [StructuredRow(s.id, now, data)],
      [])
  }

  /** A later text (taken only once `initialDone` is set): append it, ask for a reply on
      the transcript so far, append the reply, and export the transcript when the text
      holds a closure keyword. Everything but the history stays as it was; nothing is
      logged. */
  function FollowUp(svc: Services, s: Session, input: string, now: DateTime): (o: Outcome)
    requires ValidDateTime(now) && s.initialDone
    ensures o.session == s.(history := o.session.history)
    ensures o.session.history == s.history + [Turn(User, input), Turn(Assistant, FollowUpAnswer(svc, s, input))]
    ensures o.calls == [FollowUpCall(s, input)] && o.rows == []
    ensures IsClosing(input) ==> o.files == [ConversationLog(now, Lines(o.session.history))]
    ensures !IsClosing(input) ==> o.files == []
  {
    var answered := s.history + [Turn(User, input), Turn(Assistant, FollowUpAnswer(svc, s, input))];
    Outcome(
      s.(history := answered),
      [FollowUpCall(s, input)],
      [],
      if IsClosing(input) then [ConversationLog(now, Lines(answered))] else [])
  }

  /** The reply a follow-up input gets: the stripped model reply to `FollowUpCall`. */
  function FollowUpAnswer(svc: Services, s: Session, input: string): string {
    FollowUpReply(svc, input, s.proposal, Transcript(s.history + [Turn(User, input)]))
  }

  /** Handling one submitted text: the first path while `initialDone` is false, the
      follow-up path from then on. Either way the history grows by the user's text and
      one assistant turn, each model call sends one system message, and at most one
      file is written. */
  function Submit(svc: Services, s: Session, input: string, now: DateTime): (o: Outcome)
    requires ValidDateTime(now)
    ensures o.session.id == s.id && o.session.initialDone
    ensures s.history <= o.session.history && |o.session.history| == |s.history| + 2
    ensures o.session.history[|s.history|] == Turn(User, input)
    ensures o.session.history[|s.history| + 1].role == Assistant
    ensures forall k :: 0 <= k < |o.calls| ==> |o.calls[k]| == 1
    ensures |o.files| <= 1
    ensures !s.initialDone ==> o == Propose(svc, s, input, now)
    ensures s.initialDone ==> o == FollowUp(svc, s, input, now)
  {
    if !s.initialDone then
      var o := Propose(svc, s, input, now);
      assert o.session.history[..|s.history|] == s.history;
      o
    else
      var o := FollowUp(svc, s, input, now);
      assert o.session.history[..|s.history|] == s.history;
      o
  }

  /** One run of the page script: set the session up if absent, then handle the chat
      input if one was submitted; an absent or empty input changes nothing. */
  function Rerun(svc: Services, page: Option<Session>, freshId: string, input: Option<string>, now: DateTime): (o: Outcome)
    requires ValidDateTime(now)
    ensures o.session.id == (if page.Some? then page.value.id else freshId)
    ensures (input.None? || input == Some("")) ==> o == Outcome(Initialize(page, freshId), [], [], [])
    ensures input.Some? && input.value != "" ==> o == Submit(svc, Initialize(page, freshId), input.value, now)
  {
    var s := Initialize(page, freshId);
    if input.Some? && input.value != "" then Submit(svc, s, input.value, now)
    else Outcome(s, [], [], [])
  }

  // ---------------------------------------------------------------------------
  // Properties of one step
  // ---------------------------------------------------------------------------

  /** Who speaks at position `k`: the user at even positions, the assistant at odd ones. */
  function Speaker(k: nat): Role {
    if k % 2 == 0 then User else Assistant
  }

  /** Roles alternate user, assistant, user, ... and every user turn has its answer. */
  predicate Alternating(history: seq<Turn>) {
    && |history| % 2 == 0
    && forall k :: 0 <= k < |history| ==> history[k].role == Speaker(k)
  }

  /** The states a session can be in: fresh and empty, or proposed with the proposal as
      the second turn. */
  predicate Wellformed(s: Session) {
    && Alternating(s.history)
    && (!s.initialDone ==> s.history == [] && s.extracted == None && s.proposal == None)
    && (s.initialDone ==> |s.history| >= 2 && s.extracted.Some? && s.proposal.Some?
                          && s.history[1].content == s.proposal.value)
  }

  /** Appending a user turn and then an assistant turn keeps the roles alternating. */
  lemma AppendPairAlternates(h: seq<Turn>, a: string, b: string)
    requires Alternating(h)
    ensures Alternating(h + [Turn(User, a), Turn(Assistant, b)])
  {
    var h' := h + [Turn(User, a), Turn(Assistant, b)];
    forall k | 0 <= k < |h'| ensures h'[k].role == Speaker(k) {
      if k < |h| { assert h'[k] == h[k]; }
    }
  }

  /** The first text turns a fresh session into a proposed one. */
  lemma ProposeWellformed(svc: Services, s: Session, input: string, now: DateTime)
    requires ValidDateTime(now) && Wellformed(s) && !s.initialDone
    ensures Wellformed(Propose(svc, s, input, now).session)
  {
    var o := Propose(svc, s, input, now);
    AppendPairAlternates([], input, o.session.proposal.value);
  }

  /** A later text keeps a proposed session proposed, its turns still alternating. */
  lemma FollowUpWellformed(svc: Services, s: Session, input: string, now: DateTime)
    requires ValidDateTime(now) && Wellformed(s) && s.initialDone
    ensures Wellformed(FollowUp(svc, s, input, now).session)
  {
    var h := FollowUp(svc, s, input, now).session.history;
    AppendPairAlternates(s.history, input, FollowUpAnswer(svc, s, input));
    assert h[1] == s.history[1];
  }

  /** Every rerun keeps the session well formed. */
  lemma RerunPreservesWellformed(svc: Services, page: Option<Session>, freshId: string, input: Option<string>, now: DateTime)
    requires ValidDateTime(now)
    requires page.Some? ==> Wellformed(page.value)
    ensures Wellformed(Rerun(svc, page, freshId, input, now).session)
  {
    var s := Initialize(page, freshId);
    if input.Some? && input.value != "" {
      if s.initialDone {
        FollowUpWellformed(svc, s, input.value, now);
      } else {
        ProposeWellformed(svc, s, input.value, now);
      }
    }
  }

  /** On a follow-up the model sees the transcript of every earlier turn followed by the
      new user line, and not the reply it is about to give. */
  lemma FollowUpSeesTranscript(svc: Services, s: Session, input: string, now: DateTime)
    requires ValidDateTime(now) && s.initialDone
    requires SingleLineTurns(s.history) && '\n' !in input
    ensures var chat := Submit(svc, s, input, now).calls[0][0].content.chatHistory;
      Split('\n', chat) == Lines(s.history) + ["User: " + input]
  {
    var asked := s.history + [Turn(User, input)];
    assert SingleLineTurns(asked) by {
      forall k | 0 <= k < |asked| ensures '\n' !in asked[k].content {
        if k < |s.history| { assert asked[k] == s.history[k]; }
      }
    }
    TranscriptLines(asked);
    assert "User" + ": " == "User: ";
    assert Line(Turn(User, input)) == "User: " + input;
    assert Lines(asked) == Lines(s.history) + ["User: " + input] by {
      forall k | 0 <= k < |asked| ensures Lines(asked)[k] == (Lines(s.history) + ["User: " + input])[k] {
        if k < |s.history| { assert asked[k] == s.history[k]; }
      }
    }
  }

  /** A transcript exported for a history of one-line turns splits back into one line
      per turn, the last one showing the final reply. */
  lemma ExportedLines(now: DateTime, h: seq<Turn>, reply: string)
    requires ValidDateTime(now) && |h| > 0 && SingleLineTurns(h)
    requires h[|h| - 1] == Turn(Assistant, reply)
    ensures Split('\n', ConversationLog(now, Lines(h)).body) == Lines(h)
    ensures Lines(h)[|h| - 1] == "Assistant: " + reply
  {
    TranscriptLines(h);
    assert "Assistant" + ": " == "Assistant: ";
  }

  /** An exported transcript holds one line per turn of the whole history, ending with
      the reply to the closing input. */
  lemma ExportHoldsWholeHistory(svc: Services, s: Session, input: string, now: DateTime)
    requires ValidDateTime(now) && s.initialDone && IsClosing(input)
    requires SingleLineTurns(s.history + [Turn(User, input), Turn(Assistant, FollowUpAnswer(svc, s, input))])
    ensures var o := FollowUp(svc, s, input, now);
      var h := o.session.history;
      && |o.files| == 1
      && Split('\n', o.files[0].body) == Lines(h)
      && Lines(h)[|h| - 1] == "Assistant: " + FollowUpAnswer(svc, s, input)
  {
    var reply := FollowUpAnswer(svc, s, input);
    ExportedLines(now, s.history + [Turn(User, input), Turn(Assistant, reply)], reply);
  }

  // ---------------------------------------------------------------------------
  // Many reruns
  // ---------------------------------------------------------------------------

  /** What one rerun is given: the id `uuid4()` would yield, the chat input, the clock. */
  datatype Event = Event(freshId: string, input: Option<string>, now: DateTime)

  predicate ValidEvents(events: seq<Event>) {
    forall k :: 0 <= k < |events| ==> ValidDateTime(events[k].now)
  }

  /** The accumulated effects of a run of reruns; `page` is absent only before the first. */
  datatype Trace = Trace(page: Option<Session>, calls: seq<seq<Message>>, rows: seq<Row>, files: seq<SavedFile>)

  /** The reruns of `events` in order, from `page`: the session afterwards and everything
      sent, inserted and written, concatenated. Once a session exists it stays, under
      the same id. */
  function Run(svc: Services, page: Option<Session>, events: seq<Event>): (tr: Trace)
    requires ValidEvents(events)
    ensures page.Some? || |events| > 0 ==> tr.page.Some?
    ensures page.Some? ==> tr.page.value.id == page.value.id
    decreases |events|
  {
    if |events| == 0 then Trace(page, [], [], [])
    else
      var o := Rerun(svc, page, events[0].freshId, events[0].input, events[0].now);
      var rest := Run(svc, Some(o.session), events[1..]);
      Trace(rest.page, o.calls + rest.calls, o.rows + rest.rows, o.files + rest.files)
  }

  /** The texts actually submitted, in order. */
  function Submitted(events: seq<Event>): seq<string> {
    if |events| == 0 then []
    else if events[0].input.Some? && events[0].input.value != "" then [events[0].input.value] + Submitted(events[1..])
    else Submitted(events[1..])
  }

  function ClosingCount(inputs: seq<string>): nat {
    if |inputs| == 0 then 0 else (if IsClosing(inputs[0]) then 1 else 0) + ClosingCount(inputs[1..])
  }

  predicate IsExtractCall(call: seq<Message>) {
    |call| == 1 && call[0].content.ExtractPrompt?
  }

  function ExtractCount(calls: seq<seq<Message>>): nat {
    if |calls| == 0 then 0 else (if IsExtractCall(calls[0]) then 1 else 0) + ExtractCount(calls[1..])
  }

  lemma {:induction false} ExtractCountAppend(a: seq<seq<Message>>, b: seq<seq<Message>>)
    ensures ExtractCount(a + b) == ExtractCount(a) + ExtractCount(b)
  {
    if |a| > 0 {
      assert (a + b)[1..] == a[1..] + b;
      ExtractCountAppend(a[1..], b);
    } else {
      assert a + b == b;
    }
  }

  /** What one rerun does to the session's identity and state. */
  lemma RerunSession(svc: Services, page: Option<Session>, e: Event)
    requires ValidDateTime(e.now)
    requires page.Some? ==> Wellformed(page.value)
    ensures var o := Rerun(svc, page, e.freshId, e.input, e.now);
      var s := Initialize(page, e.freshId);
      var submitted := e.input.Some? && e.input.value != "";
      && Wellformed(o.session)
      && o.session.id == s.id
      && o.session.initialDone == (s.initialDone || submitted)
      && (s.initialDone ==> o.session.extracted == s.extracted && o.session.proposal == s.proposal)
  {
    RerunPreservesWellformed(svc, page, e.freshId, e.input, e.now);
  }

  /** What one rerun does to the history. */
  lemma RerunHistory(svc: Services, page: Option<Session>, e: Event)
    requires ValidDateTime(e.now)
    ensures var o := Rerun(svc, page, e.freshId, e.input, e.now);
      var h := if page.Some? then page.value.history else [];
      var submitted := e.input.Some? && e.input.value != "";
      && h <= o.session.history
      && |o.session.history| == |h| + (if submitted then 2 else 0)
      && (submitted ==> o.session.history[|h|] == Turn(User, e.input.value))
  {
  }

  /** What one rerun sends to the model, inserts and writes. */
  lemma RerunSinks(svc: Services, page: Option<Session>, e: Event)
    requires ValidDateTime(e.now)
    ensures var o := Rerun(svc, page, e.freshId, e.input, e.now);
      var started := page.Some? && page.value.initialDone;
      var submitted := e.input.Some? && e.input.value != "";
      && |o.rows| == (if submitted && !started then 1 else 0)
      && ExtractCount(o.calls) == (if submitted && !started then 1 else 0)
      && |o.calls| == (if !submitted then 0 else if started then 1 else 3)
      && |o.files| == (if submitted && started && IsClosing(e.input.value) then 1 else 0)
      && o.session.initialDone == (started || submitted)
  {
    var s := Initialize(page, e.freshId);
    if e.input.Some? && e.input.value != "" {
      var o := Submit(svc, s, e.input.value, e.now);
      if s.initialDone {
        assert ExtractCount(o.calls) == (if IsExtractCall(o.calls[0]) then 1 else 0) + ExtractCount(o.calls[1..]);
        assert o.calls[1..] == [];
      } else {
        assert o.calls[1..][1..][1..] == [];
        assert ExtractCount(o.calls[1..][1..]) == 0;
        assert ExtractCount(o.calls[1..]) == 0;
      }
    }
  }

  /** Reruns from a well-formed session (or none) end in a well-formed session with the
      same id; once proposed, the record and the proposal never change. */
  lemma {:induction false} RunKeepsSession(svc: Services, page: Option<Session>, events: seq<Event>)
    requires ValidEvents(events)
    requires page.Some? ==> Wellformed(page.value)
    requires page.None? ==> |events| > 0
    ensures var tr := Run(svc, page, events);
      var started := page.Some? && page.value.initialDone;
      && tr.page.Some? && Wellformed(tr.page.value)
      && tr.page.value.id == (if page.Some? then page.value.id else events[0].freshId)
      && tr.page.value.initialDone == (started || |Submitted(events)| > 0)
      && (started ==> tr.page.value.extracted == page.value.extracted
                      && tr.page.value.proposal == page.value.proposal)
    decreases |events|
  {
    if |events| > 0 {
      var e := events[0];
      var o := Rerun(svc, page, e.freshId, e.input, e.now);
      RerunSession(svc, page, e);
      RunKeepsSession(svc, Some(o.session), events[1..]);
      if e.input.Some? && e.input.value != "" {
        assert Submitted(events) == [e.input.value] + Submitted(events[1..]);
      } else {
        assert Submitted(events) == Submitted(events[1..]);
      }
    }
  }

  /** The first rerun of a run, named: the session it leaves and what it did to the
      history and to the submitted texts. */
  lemma RunStep(svc: Services, page: Option<Session>, events: seq<Event>) returns (next: Session)
    requires ValidEvents(events) && |events| > 0
    ensures Run(svc, page, events).page == Run(svc, Some(next), events[1..]).page
    ensures var e := events[0];
      var h := if page.Some? then page.value.history else [];
      if e.input.Some? && e.input.value != "" then
        && Submitted(events) == [e.input.value] + Submitted(events[1..])
        && h <= next.history && |next.history| == |h| + 2 && next.history[|h|] == Turn(User, e.input.value)
      else
        Submitted(events) == Submitted(events[1..]) && next.history == h
  {
    var e := events[0];
    next := Rerun(svc, page, e.freshId, e.input, e.now).session;
    RerunHistory(svc, page, e);
  }

  /** Reruns from any session (or none): the history only grows, by two turns per
      submitted text. */
  lemma {:induction false} RunGrowsHistory(svc: Services, page: Option<Session>, events: seq<Event>)
    requires ValidEvents(events)
    requires page.None? ==> |events| > 0
    ensures var tr := Run(svc, page, events);
      var h0 := if page.Some? then page.value.history else [];
      && tr.page.Some?
      && h0 <= tr.page.value.history
      && |tr.page.value.history| == |h0| + 2 * |Submitted(events)|
    decreases |events|
  {
    if |events| > 0 {
      var next := RunStep(svc, page, events);
      RunGrowsHistory(svc, Some(next), events[1..]);
    }
  }

  /** From position `start` on, `h` holds two turns per text of `ins`, the user's turn
      first, carrying that text. */
  predicate UserTurnsFrom(h: seq<Turn>, start: nat, ins: seq<string>) {
    && |h| == start + 2 * |ins|
    && forall k :: 0 <= k < |ins| ==> h[start + 2 * k] == Turn(User, ins[k])
  }

  /** The submitted texts are the user turns added by the reruns, in order: the k-th
      one sits two places after the (k-1)-th. */
  lemma {:induction false} RunUserTurns(svc: Services, page: Option<Session>, events: seq<Event>)
    requires ValidEvents(events)
    requires page.None? ==> |events| > 0
    ensures var tr := Run(svc, page, events);
      && tr.page.Some?
      && UserTurnsFrom(tr.page.value.history, if page.Some? then |page.value.history| else 0, Submitted(events))
    decreases |events|
  {
    if |events| > 0 {
      var next := RunStep(svc, page, events);
      var rest := events[1..];
      RunUserTurns(svc, Some(next), rest);
      var e := events[0];
      if e.input.Some? && e.input.value != "" {
        RunGrowsHistory(svc, Some(next), rest);
        var h0 := if page.Some? then page.value.history else [];
        UserTurnsShift(h0, next.history, Run(svc, Some(next), rest).page.value.history,
                       e.input.value, Submitted(rest), Submitted(events));
      }
    }
  }

  /** The inductive step of `RunUserTurns`: a submitted text in front of the later
      ones puts its user turn two places before theirs. */
  lemma UserTurnsShift(h0: seq<Turn>, h1: seq<Turn>, h: seq<Turn>, x: string, later: seq<string>, all: seq<string>)
    requires |h1| == |h0| + 2 && h1[|h0|] == Turn(User, x)
    requires h1 <= h && UserTurnsFrom(h, |h1|, later)
    requires all == [x] + later
    ensures UserTurnsFrom(h, |h0|, all)
  {
    forall k | 0 <= k < |all|
      ensures h[|h0| + 2 * k] == Turn(User, all[k])
    {
      if k > 0 {
        assert all[k] == later[k - 1];
        assert |h0| + 2 * k == |h1| + 2 * (k - 1);
      } else {
        assert h[|h0|] == h1[|h0|];
      }
    }
  }

  /** Reruns from any session (or none): extraction and the row insert happen
      once, on the first text ever submitted, and never again; every later text costs
      one model call; one export per later closing text. */
  lemma {:induction false} RunSinks(svc: Services, page: Option<Session>, events: seq<Event>)
    requires ValidEvents(events)
    ensures var tr := Run(svc, page, events);
      var ins := Submitted(events);
      var started := page.Some? && page.value.initialDone;
      && |tr.rows| == (if started || |ins| == 0 then 0 else 1)
      && ExtractCount(tr.calls) == (if started || |ins| == 0 then 0 else 1)
      && |tr.calls| == (if started || |ins| == 0 then |ins| else |ins| + 2)
      && |tr.files| == (if started || |ins| == 0 then ClosingCount(ins) else ClosingCount(ins[1..]))
    decreases |events|
  {
    if |events| > 0 {
      var e := events[0];
      var o := Rerun(svc, page, e.freshId, e.input, e.now);
      RerunSinks(svc, page, e);
      var rest := events[1..];
      RunSinks(svc, Some(o.session), rest);
      var tr := Run(svc, Some(o.session), rest);
      ExtractCountAppend(o.calls, tr.calls);
      var ins := Submitted(events);
      var insRest := Submitted(rest);
      if e.input.Some? && e.input.value != "" {
        assert ins == [e.input.value] + insRest;
        assert ins[1..] == insRest;
      } else {
        assert ins == insRest;
      }
    }
  }

  /** A whole conversation from a fresh page: after the first text and `n` follow-ups
      the history holds 2 + 2n turns, exactly one row was inserted and exactly one
      extraction was requested. */
  lemma Conversation(svc: Services, events: seq<Event>)
    requires ValidEvents(events) && |Submitted(events)| > 0
    ensures var tr := Run(svc, None, events);
      var n := |Submitted(events)| - 1;
      && tr.page.Some? && tr.page.value.initialDone
      && |tr.page.value.history| == 2 + 2 * n
      && |tr.rows| == 1 && ExtractCount(tr.calls) == 1
      && |tr.files| == ClosingCount(Submitted(events)[1..])
  {
    assert |events| > 0;
    RunKeepsSession(svc, None, events);
    RunGrowsHistory(svc, None, events);
    RunSinks(svc, None, events);
  }
}
