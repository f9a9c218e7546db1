# Smart Hiring Agent: the session orchestrator and its helpers

This project models the decision logic of the Smart Hiring Agent chat page. A client types a
hiring requirement into a Streamlit chat. The first text is run through a fixed pipeline of
model calls:

- extract a structured record (industry, location, roles, number of positions, urgency);
- recommend one hiring service;
- compose a proposal;
- log one row to the `structured_data` table.

Every later text gets a follow-up reply. The model is shown the whole conversation as
`Role: content` lines. When a later text contains one of the closure keywords `exit`, `bye`,
`thanks` or `quit`, whatever the letter case, the transcript is saved to a
`conversation_log_<time>.txt` file.

Modules:

- `Wrappers`: `Option`, whose `GetOr` is `dict.get(key, default)`.
- `Text`: the Python string operations the code relies on, with their laws.
  - `strip()` over the full `isspace()` set.
  - `sep.join`, together with `Split` on one character. The code never splits; `Split` is the
    inverse used to prove that a joined text gives its parts back.
  - `in` on strings.
  - `lower()` and `capitalize()`.
- `Timestamps`: the two clock renderings.
  - `datetime.isoformat()`, which leaves out a zero microsecond part.
  - `strftime("%Y-%m-%d_%H-%M-%S")`.
  - Each has a parser and a round-trip proof.
- `SmartAgent` (smart_agent.py):
  - The extracted record is a record of `Option` fields.
  - Each request sent to the model is recorded as the values its prompt embeds.
  - The chat model and `json.loads` are two uninterpreted functions (`Services`).
  - The row, with its defaults, and the transcript file are pure functions.
  - `class Agent` holds the module-level state as ghost sinks: every message list sent to the
    model, every table row and every file written. Its methods append to those sinks.
- `Orchestrator` (smart_agent_app.py as values):
  - One Streamlit rerun is a function from the session found in `st.session_state` (or none)
    and the chat input (or none) to the new session plus what was sent, inserted and written.
  - `Run` folds reruns over a sequence of events.
  - The lemmas cover:
    - the two-phase behaviour;
    - history growth;
    - well-formedness (alternating roles, proposal as the second turn);
    - the transcript the model sees;
    - the export condition;
    - counts over whole conversations.
- `SmartAgentApp` (smart_agent_app.py as a class): `SessionState` has the fields of
  `st.session_state`, which its methods reassign in place. Each method is proved to produce the
  session and side effects that the `Orchestrator` function of the same step describes.

Three details of the code that are easy to miss:

- A missing `number_of_positions` reads as 0 in the logged row (smart_agent.py:177), while the
  recommendation reads it as 1 (smart_agent.py:86). `SmartAgent.RowAgreesWithRecommendation`
  states the difference.
- The export file name uses `%Y-%m-%d_%H-%M-%S` (smart_agent.py:189), so it is 40 characters
  long. Two exports in the same second get the same name; see
  `Timestamps.LogFileNameSameSecond`.
- An empty chat input is skipped, because the walrus `if` at smart_agent_app.py:30 is false
  for `""`.

## Model

| member | source | states |
|---|---|---|
| Wrappers.Option.GetOr | smart_agent.py:83-87 | `dict.get(key, default)`: the stored value when the key is present, the default otherwise |
| Text.TrimStartCuts | smart_agent.py:113 | removing leading whitespace leaves a suffix whose dropped prefix is all whitespace and whose first character (if any) is not whitespace |
| Text.TrimEndCuts | smart_agent.py:113 | removing trailing whitespace leaves a prefix whose dropped suffix is all whitespace and whose last character (if any) is not whitespace |
| Text.Strip | smart_agent.py:113 | `strip()` never lengthens the text, and what it returns neither starts nor ends with whitespace |
| Text.StripIsStrip | smart_agent.py:113 | `strip()` returns a contiguous slice of the text, with only whitespace cut on either side and no whitespace at either end of the result |
| Text.StripUnique | smart_agent.py:145 | any two results meeting that description are equal, so the stripped text is fully determined by the input |
| Text.StripIdempotent | smart_agent.py:169 | stripping an already stripped reply changes nothing |
| Text.Join | smart_agent.py:176 | joining no parts gives the empty string; otherwise the result starts with the first part |
| Text.JoinEndsWithLast | smart_agent.py:192 | the joined text ends with the last part, with no trailing separator |
| Text.JoinLength | smart_agent.py:176 | the joined length is the sum of the part lengths plus one separator per gap |
| Text.SplitJoin | smart_agent.py:192 | splitting a join on a one-character separator gives back the parts when no part contains that character |
| Text.ContainsLength | smart_agent_app.py:60 | a substring test can only hold for a keyword no longer than the text |
| Text.ContainsIff | smart_agent_app.py:60 | the substring test holds exactly when the keyword occurs at some position |
| Text.Lower | smart_agent_app.py:60 | `lower()` keeps the length and maps each character through the ASCII lower-casing |
| Text.LowerIdempotent | smart_agent_app.py:60 | lower-casing twice is the same as lower-casing once |
| Text.Capitalize | smart_agent_app.py:50 | `capitalize()` keeps the length, upper-cases the first character and lower-cases the rest |
| Timestamps.Digits | smart_agent.py:189 | a zero-padded field has exactly the requested width and only decimal digits |
| Timestamps.DigitsRoundTrip | smart_agent.py:189 | reading back the zero-padded digits of a number that fits the width gives the number |
| Timestamps.StampRoundTrip | smart_agent.py:189 | the 19-character date-time rendering parses back to the same instant up to the microsecond |
| Timestamps.IsoFormat | smart_agent.py:173 | `isoformat()` is 19 characters for a whole second, and 26 characters with a `.` at position 19 otherwise |
| Timestamps.IsoFormatRoundTrip | smart_agent.py:173 | the logged `isoformat()` timestamp parses back to exactly the instant, with and without a microsecond part |
| Timestamps.LogFileName | smart_agent.py:189-190 | the export file name is always 40 characters, starting with `conversation_log_` and ending with `.txt` |
| Timestamps.LogFileNameRoundTrip | smart_agent.py:189-190 | the file name determines the export instant to the second and drops the microseconds, so exports in different seconds get different names |
| Timestamps.LogFileNameSameSecond | smart_agent.py:189-190 | two instants in the same second give the same file name, so a later export in that second overwrites the earlier file |
| SmartAgent.ExtractedData | smart_agent.py:72-76 | the decoded reply when it parses; the empty record `{}` when decoding fails, never an error |
| SmartAgent.RecommendRequest | smart_agent.py:83-87 | one system message; missing fields read as industry "", location "", roles [], count 1, urgency false, and present fields pass through unchanged |
| SmartAgent.RecommendedService | smart_agent.py:111-113 | the service name is the model's reply with surrounding whitespace cut: no longer than the reply and with no whitespace at either end |
| SmartAgent.ProposalRequest | smart_agent.py:126-131 | one system message embedding the raw `data.get` values, the roles joined with ", " and the chosen service |
| SmartAgent.ProposalText | smart_agent.py:143-145 | the proposal is the model's reply with surrounding whitespace cut: no longer than the reply and with no whitespace at either end |
| SmartAgent.FollowUpReply | smart_agent.py:167-169 | the follow-up reply is the model's reply with surrounding whitespace cut: no longer than the reply and with no whitespace at either end |
| SmartAgent.StructuredRow | smart_agent.py:173-178 | the row carries the session id and the isoformat timestamp; missing fields read as "", "", "", 0, false; roles are joined with ", " |
| SmartAgent.RowAgreesWithRecommendation | smart_agent.py:174-178 | the row and the recommendation agree on every field, except that a missing count is 1 for one and 0 for the other |
| SmartAgent.ConversationLog | smart_agent.py:188-192 | the saved file is named `conversation_log_` plus the 19-character stamp plus `.txt`; its body is empty for no lines and otherwise starts with the first line |
| SmartAgent.ConversationLogNameAndStart | smart_agent.py:188-192 | the saved file's name parses back to the export instant (to the second); the body is empty for no lines and otherwise starts with the first line |
| SmartAgent.ConversationLogLines | smart_agent.py:192 | the body splits back into exactly the given lines in order, and ends with the last line (no trailing newline) |
| SmartAgent.Agent.constructor | smart_agent.py:17-28 | a fresh process has sent nothing, inserted no row and written no file |
| SmartAgent.Agent.ExtractHiringInfo | smart_agent.py:70-76 | exactly one model call with one system message; the result is the decoded record or `{}` |
| SmartAgent.Agent.RecommendServiceGpt | smart_agent.py:111-113 | exactly one model call; the result is the stripped reply |
| SmartAgent.Agent.GenerateProposal | smart_agent.py:143-145 | exactly one model call; the result is the stripped reply |
| SmartAgent.Agent.GenerateFollowUpLoop | smart_agent.py:167-169 | exactly one model call; the result is the stripped reply |
| SmartAgent.Agent.LogStructuredData | smart_agent.py:180-185 | exactly one row is appended, with the seven columns in declared order; earlier rows are untouched |
| SmartAgent.Agent.SaveConversationLog | smart_agent.py:189-192 | exactly one file is written, holding the lines joined with "\n" |
| Orchestrator.Lines | smart_agent_app.py:49-51 | one `Role: content` line per turn, in history order |
| Orchestrator.Transcript | smart_agent_app.py:49-51 | the `full_chat` text is empty for an empty history and otherwise starts with the first turn's line |
| Orchestrator.LabelIsCapitalizedRole | smart_agent_app.py:50 | the transcript label is the stored role name capitalised |
| Orchestrator.TranscriptLines | smart_agent_app.py:49-51 | the transcript splits back into one line per turn when no turn contains a newline |
| Orchestrator.IsClosing | smart_agent_app.py:60 | no text shorter than the shortest keyword (`bye`) is closing |
| Orchestrator.IsClosingIff | smart_agent_app.py:60 | the closure test holds exactly when some keyword occurs at some position of the lower-cased input |
| Orchestrator.IsClosingIgnoresCase | smart_agent_app.py:60 | an input and its lower-cased form are closing alike |
| Orchestrator.ThanksByeCloses | smart_agent_app.py:60-61 | an input matching two keywords ("Thanks, bye!") is closing, and it is one closing input |
| Orchestrator.Initialize | smart_agent_app.py:13-18 | an existing session is kept as it is; a missing one becomes a fresh id with empty history, no record, no proposal and `initial_done` false |
| Orchestrator.Propose | smart_agent_app.py:32-39 | the first text sends extract, recommend and compose in that order; stores the decoded record and the composed proposal for the recommended service; logs exactly one row; appends the input and then that proposal; flips `initial_done`; writes no file |
| Orchestrator.FollowUp | smart_agent_app.py:46-61 | a later text (only once `initial_done` is set) sends one call carrying the transcript; appends the input and then the reply; changes nothing else in the session; logs nothing; writes the transcript exactly when the text is closing |
| Orchestrator.Submit | smart_agent_app.py:32-53 | either path grows the history by the user text and one assistant turn; every call is one system message; at most one file is written |
| Orchestrator.Rerun | smart_agent_app.py:13-61 | set-up then dispatch; an absent or empty input changes nothing; the id is never replaced |
| Orchestrator.AppendPairAlternates | smart_agent_app.py:37-38 | appending a user turn and then an assistant turn keeps the roles alternating |
| Orchestrator.ProposeWellformed | smart_agent_app.py:33-39 | the first text turns a fresh session into a proposed one, with the proposal as the second turn |
| Orchestrator.FollowUpWellformed | smart_agent_app.py:48-53 | a later text keeps a proposed session well formed |
| Orchestrator.RerunPreservesWellformed | smart_agent_app.py:13-61 | every rerun from a well-formed session (or none) ends in a well-formed session |
| Orchestrator.FollowUpSeesTranscript | smart_agent_app.py:48-52 | the model is shown every earlier turn's line, then the new user line, and not the reply it is about to give |
| Orchestrator.ExportedLines | smart_agent_app.py:60-61 | an exported history of one-line turns splits back into one line per turn, the last one showing the final reply |
| Orchestrator.ExportHoldsWholeHistory | smart_agent_app.py:53-61 | a closing text writes one file, holding the whole history including the reply to that text |
| Orchestrator.RerunSession | smart_agent_app.py:13-39 | one rerun keeps well-formedness and the id; `initial_done` becomes set exactly when a text was submitted or it was already set; once set, the record and the proposal are unchanged |
| Orchestrator.RerunHistory | smart_agent_app.py:37-53 | one rerun extends the history by two turns, starting with the user text, or leaves it unchanged |
| Orchestrator.RerunSinks | smart_agent_app.py:32-61 | one rerun sends 0, 1 or 3 calls; makes one extraction and one row only on the first text; writes one file only for a closing later text |
| Orchestrator.ExtractCountAppend | smart_agent_app.py:33 | extraction calls over two call lists add up |
| Orchestrator.Run | smart_agent_app.py:13-18 | once a session exists it stays for every later rerun, under the same id |
| Orchestrator.RunKeepsSession | smart_agent_app.py:13-39 | over many reruns: the session stays well formed and keeps its id; the transition happens once; the record and the proposal never change afterwards |
| Orchestrator.RunStep | smart_agent_app.py:30-53 | the first rerun of a run either submits a text, adding its user turn and two turns in all, or leaves the history as it was |
| Orchestrator.RunGrowsHistory | smart_agent_app.py:37-53 | over many reruns the history only grows, by exactly two turns per submitted text |
| Orchestrator.RunUserTurns | smart_agent_app.py:37-48 | the submitted texts are the added user turns, in order, at every second position |
| Orchestrator.UserTurnsShift | smart_agent_app.py:37-48 | a submitted text in front of the later ones puts its user turn two places before theirs |
| Orchestrator.RunSinks | smart_agent_app.py:32-61 | over many reruns: one row and one extraction ever (on the first text); one call per later text; one export per closing later text, never on the first |
| Orchestrator.Conversation | smart_agent_app.py:13-61 | a first text followed by n later ones gives a history of 2 + 2n turns, exactly one row and exactly one extraction |
| SmartAgentApp.SessionState.Snapshot | smart_agent_app.py:13-18 | the session keys are present exactly when `session_id` is set, and the snapshot carries the id, history, extracted record, proposal and `initial_done` fields as they are |
| SmartAgentApp.SessionState.constructor | smart_agent_app.py:13 | a new browser session has no keys set |
| SmartAgentApp.SessionState.SetUp | smart_agent_app.py:13-18 | the fields change as `Orchestrator.Initialize` says: set once, never reset |
| SmartAgentApp.SessionState.Consult | smart_agent_app.py:33-35 | extract, recommend and compose, in order, append their three requests and give the record and the proposal |
| SmartAgentApp.SessionState.ProposeFor | smart_agent_app.py:32-39 | the fields, the calls, the rows and the files change exactly as `Orchestrator.Propose` says |
| SmartAgentApp.SessionState.FollowUpFor | smart_agent_app.py:46-61 | once `initial_done` is set, the fields, the calls and the files change exactly as `Orchestrator.FollowUp` says; no row is added |
| SmartAgentApp.SessionState.Rerun | smart_agent_app.py:13-61 | one run of the page script changes the state and the sinks as `Orchestrator.Rerun` says and keeps the session well formed |

## Left out

- The chat model and the prompt wording (smart_agent.py:14, 32-69, 89-110, 123-142, 149-166) are not modelled. `Services.llm` is an uninterpreted function of the message list. A `Prompt` records only the values each prompt embeds.
- Sampling: with temperature 0.3 the real model is not a function of its input. The model treats it as one within a run, which is enough for every property above, since each call is made once.
- JSON decoding (smart_agent.py:73) is the uninterpreted `Services.decode`. Field values are assumed well typed: a JSON `null`, a wrong type or non-object JSON is not modelled.
- Whether the recommended service is one of the four listed packages is not modelled; the code does not check it either.
- SQLite: the connection, table creation and commits (smart_agent.py:17-28, 185) become the ghost `rows` sequence.
- SmartAgent.Agent.constructor: `rows` starts empty, but the real table persists across processes (`CREATE TABLE IF NOT EXISTS`). The sequence holds only the rows inserted by this process.
- File writing (smart_agent.py:191-192) becomes the ghost `files` sequence; the two `print` calls (smart_agent.py:75, 193) are not modelled. A file written again in the same second overwrites the earlier one on disk; the sequence keeps both.
- `datetime.now()` (smart_agent.py:173, 189) is a parameter. One instant is passed per rerun and used for both the row and the file name; the real code reads the clock separately for each.
- `uuid.uuid4()` (smart_agent_app.py:14) is a parameter, `freshId`.
- Streamlit rendering (smart_agent_app.py:20-27, 41-44, 55-58) is not modelled; it shows the history and changes no state.
- `view_structured_log.py` is not part of this model: it only reads the table for display.
- Timestamps.Digits: `%Y` is modelled as four zero-padded digits. Some C libraries do not pad years below 1000.
- Text.Lower and Text.Capitalize cover ASCII letters only. Python's full Unicode case mapping (for example the Kelvin sign, or characters whose case forms have a different length) is not modelled.
- SmartAgentApp.SessionState.ProposeFor: `extracted_data` and `proposal` are assigned after all three model calls rather than between them. When every call succeeds, nothing reads them in between, so the final state is the same. The intermediate states are not modelled, and neither is a failure part-way (next line).
- Failures are not modelled. A model call, `json.loads` with anything but a decode error, and the SQLite insert can raise, and the rerun then stops part-way. The model treats the model and the decoder as total functions and the insert as always succeeding. This matters in two places:
  - On a first text, if the recommend or compose call or the insert raises, `extracted_data` (and possibly `proposal`) stays set with `initial_done` still false. If the extraction call raises, nothing is set. Either way the next text runs the first path again.
  - A later text whose call raises leaves the user turn in the history with no reply after it.
- Orchestrator.Wellformed, Orchestrator.Alternating, Orchestrator.RunGrowsHistory, Orchestrator.RunUserTurns, Orchestrator.RunSinks, Orchestrator.Conversation and SmartAgentApp.SessionState.Rerun: these hold only for runs in which no call and no insert raises. With failures, the history can hold two user turns in a row, and extraction and rows can repeat.
- Concurrency between browser sessions that share the module-level database cursor is not modelled.
