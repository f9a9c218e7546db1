/** The helpers of the agent back end (smart_agent.py): extraction with its parse
    fallback, the recommendation, proposal and follow-up generators, the structured
    row with its defaults, and the transcript file.

    The chat model and `json.loads` are not modelled; they are the two functions of
    `Services`. Prompt wording is not modelled either: a `Prompt` records which values
    each instruction block embeds, and the model sees nothing else. */
module SmartAgent {
  import opened Wrappers
  import opened Text
  import opened Timestamps

  /** The dict `json.loads` yields for an extraction reply; `None` is a key the reply
      left out, so `data.get(key, default)` is `GetOr(default)`. */
  datatype HiringData = HiringData(
    industry: Option<string>,
    location: Option<string>,
    roles: Option<seq<string>>,
    numberOfPositions: Option<int>,
    urgency: Option<bool>)

  /** `{}`: the record extraction returns when the reply is not valid JSON. */
  const EmptyData: HiringData := HiringData(None, None, None, None, None)

  /** What each instruction block embeds. */
  datatype Prompt =
    | ExtractPrompt(userInput: string)
    | RecommendPrompt(industry: string, location: string, roles: seq<string>, count: int, urgent: bool)
    | ProposalPrompt(rawIndustry: Option<string>, rawLocation: Option<string>, rolesText: string,
                     rawCount: Option<int>, rawUrgent: Option<bool>, service: string)
    | FollowUpPrompt(chatHistory: string, proposal: Option<string>, userReply: string)

  /** A `SystemMessage`; every model call here sends a list holding exactly one. */
  datatype Message = SystemMessage(content: Prompt)

  /** The chat model, as a map from the messages sent to the reply text, and
      `json.loads`, as a map from the reply text to the decoded record or `None` when
      it raises `JSONDecodeError`. */
  datatype Services = Services(llm: seq<Message> -> string, decode: string -> Option<HiringData>)

  /** One row of the `structured_data` table, columns in declared order. */
  datatype Row = Row(
    sessionId: string,
    timestamp: string,
    industry: string,
    location: string,
    roles: string,
    numberOfPositions: int,
    urgency: bool)

  /** A text file written by `save_conversation_log`. */
  datatype SavedFile = SavedFile(name: string, body: string)

  // ---------------------------------------------------------------------------
  // Requests and results of the four model calls
  // ---------------------------------------------------------------------------

  function ExtractRequest(userInput: string): seq<Message> {
    [SystemMessage(ExtractPrompt(userInput))]
  }

  /** `extract_hiring_info`: the decoded reply, or the empty record when decoding fails. */
  function ExtractedData(svc: Services, userInput: string): (data: HiringData)
    ensures svc.decode(svc.llm(ExtractRequest(userInput))).None? ==> data == EmptyData
    ensures svc.decode(svc.llm(ExtractRequest(userInput))).Some? ==>
              data == svc.decode(svc.llm(ExtractRequest(userInput))).value
  {
    match svc.decode(svc.llm(ExtractRequest(userInput)))
    case Some(parsed) => parsed
    case None => EmptyData
  }

  /** The fields `recommend_service_gpt` embeds, each missing one replaced by its
      default: industry "", location "", roles [], count 1, urgency false. */
  function RecommendRequest(data: HiringData): (req: seq<Message>)
    ensures |req| == 1 && req[0].content.RecommendPrompt?
    ensures var p := req[0].content;
      && (data.industry.None? ==> p.industry == "") && (data.location.None? ==> p.location == "")
      && (data.roles.None? ==> p.roles == []) && (data.numberOfPositions.None? ==> p.count == 1)
      && (data.urgency.None? ==> !p.urgent)
    ensures var p := req[0].content;
      && (data.industry.Some? ==> p.industry == data.industry.value)
      && (data.location.Some? ==> p.location == data.location.value)
      && (data.roles.Some? ==> p.roles == data.roles.value)
      && (data.numberOfPositions.Some? ==> p.count == data.numberOfPositions.value)
      && (data.urgency.Some? ==> p.urgent == data.urgency.value)
  {
    [SystemMessage(RecommendPrompt(
      data.industry.GetOr(""), data.location.GetOr(""), data.roles.GetOr([]),
      data.numberOfPositions.GetOr(1), data.urgency.GetOr(false)))]
  }

  /** `recommend_service_gpt`: the stripped reply, whatever it is; membership in the
      four-package catalogue is not checked. */
  function RecommendedService(svc: Services, data: HiringData): (service: string)
    ensures |service| <= |svc.llm(RecommendRequest(data))| && Trimmed(service)
  {
    Strip(svc.llm(RecommendRequest(data)))
  }

  /** The fields `generate_proposal` embeds: the raw `data.get(key)` values (absent
      ones render as `None`), roles joined with ", ", and the chosen service. */
  function ProposalRequest(data: HiringData, service: string): (req: seq<Message>)
    ensures |req| == 1 && req[0].content.ProposalPrompt?
    ensures var p := req[0].content;
      && p.rawIndustry == data.industry && p.rawLocation == data.location
      && p.rawCount == data.numberOfPositions && p.rawUrgent == data.urgency && p.service == service
    ensures req[0].content.rolesText == Join(", ", data.roles.GetOr([]))
  {
    [SystemMessage(ProposalPrompt(
      data.industry, data.location, Join(", ", data.roles.GetOr([])),
      data.numberOfPositions, data.urgency, service))]
  }

  /** `generate_proposal`: the stripped reply. */
  function ProposalText(svc: Services, data: HiringData, service: string): (text: string)
    ensures |text| <= |svc.llm(ProposalRequest(data, service))| && Trimmed(text)
  {
    Strip(svc.llm(ProposalRequest(data, service)))
  }

  function FollowUpRequest(userReply: string, proposal: Option<string>, chatHistory: string): seq<Message> {
    [SystemMessage(FollowUpPrompt(chatHistory, proposal, userReply))]
  }

  /** `generate_follow_up_loop`: the stripped reply. */
  function FollowUpReply(svc: Services, userReply: string, proposal: Option<string>, chatHistory: string): (reply: string)
    ensures |reply| <= |svc.llm(FollowUpRequest(userReply, proposal, chatHistory))| && Trimmed(reply)
  {
    Strip(svc.llm(FollowUpRequest(userReply, proposal, chatHistory)))
  }

  // ---------------------------------------------------------------------------
  // The logged row and the transcript file
  // ---------------------------------------------------------------------------

  /** The row `log_structured_data` inserts: missing fields read as industry "",
      location "", roles "", count 0, urgency false; roles are joined with ", ". */
  function StructuredRow(sessionId: string, now: DateTime, data: HiringData): (row: Row)
    requires ValidDateTime(now)
    ensures row.sessionId == sessionId && row.timestamp == IsoFormat(now)
    ensures && (data.industry.None? ==> row.industry == "") && (data.location.None? ==> row.location == "")
            && (data.roles.None? ==> row.roles == "") && (data.numberOfPositions.None? ==> row.numberOfPositions == 0)
            && (data.urgency.None? ==> !row.urgency)
    ensures && (data.industry.Some? ==> row.industry == data.industry.value)
            && (data.location.Some? ==> row.location == data.location.value)
            && (data.roles.Some? ==> row.roles == Join(", ", data.roles.value))
            && (data.numberOfPositions.Some? ==> row.numberOfPositions == data.numberOfPositions.value)
            && (data.urgency.Some? ==> row.urgency == data.urgency.value)
  {
    Row(sessionId, IsoFormat(now), data.industry.GetOr(""), data.location.GetOr(""),
        Join(", ", data.roles.GetOr([])), data.numberOfPositions.GetOr(0), data.urgency.GetOr(false))
  }

  /** The recommendation and the logged row see the same record through different
      defaults: they agree on every field except a missing count, which the
      recommendation reads as 1 and the row as 0; the row's roles column is the
      recommendation's roles list joined with ", ". */
  lemma RowAgreesWithRecommendation(sessionId: string, now: DateTime, data: HiringData)
    requires ValidDateTime(now)
    ensures var p := RecommendRequest(data)[0].content;
      var row := StructuredRow(sessionId, now, data);
      && row.industry == p.industry && row.location == p.location && row.urgency == p.urgent
      && row.roles == Join(", ", p.roles)
      && row.numberOfPositions == (if data.numberOfPositions.None? then p.count - 1 else p.count)
  {
  }

  /** `save_conversation_log`: a file named after the instant to the second, whose
      body is the lines joined with "\n". */
  function ConversationLog(now: DateTime, lines: seq<string>): (file: SavedFile)
    requires ValidDateTime(now)
    ensures |file.name| == 40 && file.name[..17] == LogPrefix && file.name[36..] == LogSuffix
    ensures |lines| == 0 ==> file.body == ""
    ensures |lines| > 0 ==> lines[0] <= file.body
  {
    SavedFile(LogFileName(now), Join("\n", lines))
  }

  /** The file name records the export instant to the second, and the body starts with
      the first line (it is empty when there are no lines). */
  lemma ConversationLogNameAndStart(now: DateTime, lines: seq<string>)
    requires ValidDateTime(now)
    ensures var file := ConversationLog(now, lines);
      && ParseLogFileName(file.name) == Some(now.(microsecond := 0))
      && (|lines| == 0 ==> file.body == "")
      && (|lines| > 0 ==> lines[0] <= file.body)
  {
    LogFileNameRoundTrip(now);
  }

  /** The file holds one line per entry, in order, and nothing after the last one,
      when no entry itself contains a newline. */
  lemma ConversationLogLines(now: DateTime, lines: seq<string>)
    requires ValidDateTime(now)
    requires |lines| > 0
    requires forall k :: 0 <= k < |lines| ==> '\n' !in lines[k]
    ensures Split('\n', ConversationLog(now, lines).body) == lines
    ensures var body := ConversationLog(now, lines).body;
      var last := lines[|lines| - 1];
      |last| <= |body| && body[|body| - |last|..] == last
  {
    SplitJoin('\n', lines);
    JoinEndsWithLast("\n", lines);
  }

  // ---------------------------------------------------------------------------
  // The module-level state: model client, database cursor, files written
  // ---------------------------------------------------------------------------

  /** The back end as the app sees it. `calls` records every message list sent to the
      model, `rows` the `structured_data` table, `files` every transcript written. */
  class Agent {
    const svc: Services
    ghost var calls: seq<seq<Message>>
    ghost var rows: seq<Row>
    ghost var files: seq<SavedFile>

    /** A fresh process with an empty table and no files written. */
    constructor (svc: Services)
      ensures this.svc == svc && calls == [] && rows == [] && files == []
    {
      this.svc := svc;
      calls, rows, files := [], [], [];
    }

    /** One model call carrying one system message; a reply that does not decode gives
        the empty record instead of an exception. */
    method ExtractHiringInfo(userInput: string) returns (data: HiringData)
      modifies this`calls
      ensures calls == old(calls) + [ExtractRequest(userInput)]
      ensures data == ExtractedData(svc, userInput)
    {
      var messages := ExtractRequest(userInput);
      var response := svc.llm(messages);
      calls := calls + [messages];
      var parsed := svc.decode(response);
      match parsed {
        case Some(d) => data := d;
        case None => data := EmptyData;
      }
    }

    method RecommendServiceGpt(data: HiringData) returns (service: string)
      modifies this`calls
      ensures calls == old(calls) + [RecommendRequest(data)]
      ensures service == RecommendedService(svc, data)
    {
      var messages := RecommendRequest(data);
      var response := svc.llm(messages);
      calls := calls + [messages];
      service := Strip(response);
    }

    method GenerateProposal(data: HiringData, service: string) returns (proposal: string)
      modifies this`calls
      ensures calls == old(calls) + [ProposalRequest(data, service)]
      ensures proposal == ProposalText(svc, data, service)
    {
      var messages := ProposalRequest(data, service);
      var response := svc.llm(messages);
      calls := calls + [messages];
      proposal := Strip(response);
    }

    method GenerateFollowUpLoop(userReply: string, proposal: Option<string>, chatHistory: string)
      returns (reply: string)
      modifies this`calls
      ensures calls == old(calls) + [FollowUpRequest(userReply, proposal, chatHistory)]
      ensures reply == FollowUpReply(svc, userReply, proposal, chatHistory)
    {
      var messages := FollowUpRequest(userReply, proposal, chatHistory);
      var response := svc.llm(messages);
      calls := calls + [messages];
      reply := Strip(response);
    }

    /** Appends exactly one row and leaves the earlier rows as they were. */
    method LogStructuredData(sessionId: string, now: DateTime, data: HiringData)
      requires ValidDateTime(now)
      modifies this`rows
      ensures rows == old(rows) + [StructuredRow(sessionId, now, data)]
    {
      rows := rows + [StructuredRow(sessionId, now, data)];
    }

    method SaveConversationLog(now: DateTime, history: seq<string>)
      requires ValidDateTime(now)
      modifies this`files
      ensures files == old(files) + [ConversationLog(now, history)]
    {
      files := files + [ConversationLog(now, history)];
    }
  }
}
