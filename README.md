# Flowy meeting analysis: summary parser and analysis router

This project models the logic of the Flowy meeting-analysis back end that does
not depend on an outside service:

- `get_meeting_summary` (`app/services/summarizer_service.py`). The model
  covers:
  - the guards in front of the chat-completion call;
  - the loop that turns the model's free-text reply into at most five bullet
    points;
  - the wrapping of errors.

  Each reply line is stripped. One leading match of the pattern
  `^[-\*\d]+\.?\s*` is then removed, and empty lines are dropped. The quirks
  of that pattern are kept: "2024년 계획" becomes "년 계획" and "1.2 foo"
  becomes "2 foo".
- `analyze_meeting_endpoint` (`app/routers/analysis.py`). The model covers:
  - the fixed order of refusals: bad metadata, no file, no transcription
    pipeline, a failed transcription;
  - the short-circuit on an empty transcript;
  - the three analysis stages, each with its own fallback.

  A ghost log records which collaborators the endpoint called.
- `send_analysis_email_via_button` (`app/routers/analysis.py`). The model
  covers how recipients are picked, the e-mail subject, and the single
  background task it schedules. FastAPI's `BackgroundTasks` is a class whose
  `AddTask` appends to a sequence field.

Outside services are inputs, not code:
- the chat-completion call is a `CompletionOutcome`;
- the transcription service is a `SttOutcome`;
- the action-item and relevance services are `StageOutcome`s;
- metadata parsing is a `MetadataParse`.

Files:
- `wrappers.dfy`: `Option`.
- `pytext.dfy`: Python's `str.isspace`, `strip()`, `split(sep)` and
  `sep.join`.
- `summarizer.dfy`: the marker regex, the parse loop and `get_meeting_summary`.
- `summary_examples.dfy`: concrete replies.
- `meeting_models.dfy`: the response records.
- `analysis.dfy`: both endpoints.

Points of the source worth knowing when reading the model:
- A transcription `ValueError` gives status 400; a transcription
  `RuntimeError`, or any other exception, gives status 500
  (`app/routers/analysis.py:63-67`).
- Neither endpoint checks attendee names: they may repeat
  (`app/routers/analysis.py:98`, `app/routers/analysis.py:155-157`).
- An empty list of summary points is an ordinary success, with the success
  message (`app/routers/analysis.py:91`).
- Whitespace is Python's `str.isspace` set. The model uses that one set both
  for `str.strip()` and for the class `\s` of the marker pattern, which on str
  patterns matches the same characters.

## Model

| member | source | states |
|---|---|---|
| `PyText.Strip` | flowy_integrated/app/services/summarizer_service.py:92 | `strip()` leaves no whitespace at either end. It gives "" exactly when the text is all whitespace. It leaves an already stripped text unchanged. |
| `PyText.StripKeepsCore` | flowy_integrated/app/services/summarizer_service.py:92 | `strip()` removes exactly the surrounding whitespace: whitespace, then a non-empty core with no whitespace at either end, then whitespace, strips to that core. Every text that is not all whitespace has this form, so with `Strip`'s contract this fixes the result. |
| `PyText.Split` | flowy_integrated/app/services/summarizer_service.py:90 | `split('\n')` gives at least one piece, and no piece contains the separator. |
| `PyText.JoinSplit` | flowy_integrated/app/services/summarizer_service.py:90 | Splitting loses nothing: joining the pieces with the separator gives the text back. |
| `PyText.SplitJoin` | flowy_integrated/app/services/summarizer_service.py:90 | Pieces without the separator, once joined, split back into the same pieces. |
| `SummarizerService.MatchLength` | flowy_integrated/app/services/summarizer_service.py:94 | The match is empty exactly when the line does not start with `-`, `*` or a digit. A non-empty match never stops in front of whitespace. |
| `SummarizerService.StripMarker` | flowy_integrated/app/services/summarizer_service.py:94 | The substitution keeps a suffix of the line. It removes something exactly when the line starts with a marker character. When it removes something, what it keeps does not start with whitespace. |
| `SummarizerService.StripMarkerRemovesLongestMatch` | flowy_integrated/app/services/summarizer_service.py:94 | The removed prefix is in the language of `[-\*\d]+\.?\s*`, and every prefix in that language is no longer than it. The substitution therefore removes exactly the greedy leading match, once. |
| `SummarizerService.CleanLine` | flowy_integrated/app/services/summarizer_service.py:92-94 | A cleaned line is a suffix of the stripped line, with no whitespace at either end. A stripped line that does not start with a marker character is kept whole. |
| `SummarizerService.CleanLineEmpty` | flowy_integrated/app/services/summarizer_service.py:92-95 | A line is dropped exactly when it is blank, or when its stripped form is nothing but a marker match such as "-" or "3.". |
| `SummarizerService.MarkedLine` | flowy_integrated/app/services/summarizer_service.py:92-94 | A line made of a list marker ending in whitespace, followed by a stripped item, cleans to that item. |
| `SummarizerService.CleanedLines` | flowy_integrated/app/services/summarizer_service.py:91-96 | The collected points are no more than the lines. Every point is non-empty and has no whitespace at either end. |
| `SummarizerService.CleanedLinesAppend` | flowy_integrated/app/services/summarizer_service.py:91-96 | Cleaning works line by line and keeps order: two blocks of lines give the points of the first block, then those of the second. |
| `SummarizerService.CleanedLinesMembers` | flowy_integrated/app/services/summarizer_service.py:91-96 | A text is a point exactly when it is non-empty and some line cleans to it. |
| `SummarizerService.CleanedLinesAllKept` | flowy_integrated/app/services/summarizer_service.py:91-96 | When every line cleans to a non-empty item, the points are exactly those items, in order. |
| `SummarizerService.MarkedReplyParses` | flowy_integrated/app/services/summarizer_service.py:85-100 | A reply written as a list, with a marker in front of each item, parses back to its items, cut to the first five. |
| `SummarizerService.SummaryPoints` | flowy_integrated/app/services/summarizer_service.py:90-100 | The summary has at most five points, each non-empty and stripped. It is a prefix of all the cleaned, non-empty lines of the stripped reply, and equals all of them when there are fewer than five. |
| `SummarizerService.ParseSummaryReply` | flowy_integrated/app/services/summarizer_service.py:86-100 | The loop over the reply's lines and the cap compute `SummaryPoints`. The loop invariant says the list built so far is the cleaned form of the lines read so far. |
| `SummarizerService.MeetingSummary` | flowy_integrated/app/services/summarizer_service.py:39-114 | A missing client, and nothing else, raises `ValueError` with its message; this error is never rewrapped. A blank transcript gives `[]`. A failed call, and nothing else, raises `RuntimeError` with the prefixed message. A `None` reply gives `[]`. Otherwise a reply gives its parsed points, `SummaryPoints` of the reply. Any result has at most five stripped, non-empty points. |
| `SummarizerService.GetMeetingSummary` | flowy_integrated/app/services/summarizer_service.py:39-114 | Returns what `MeetingSummary` describes. It calls the chat model once when the client is present and the transcript is not blank, and never otherwise. |
| `SummaryExamples.DocCommentReply` | flowy_integrated/app/services/summarizer_service.py:85-96 | The reply "- 항목1\n- 항목2\n* 항목3" parses to ["항목1", "항목2", "항목3"]. |
| `SummaryExamples.QuirkYear` | flowy_integrated/app/services/summarizer_service.py:94 | "2024년 계획" is cleaned to "년 계획": a leading number is eaten even when it is content. |
| `SummaryExamples.QuirkDecimal` | flowy_integrated/app/services/summarizer_service.py:94 | "1.2 foo" is cleaned to "2 foo". |
| `AnalysisRouter.Transcript` | flowy_integrated/app/routers/analysis.py:56-61 | The transcript is "" exactly when the service gave `None` or blank text. Otherwise it is that text, unchanged. |
| `AnalysisRouter.SttResult` | flowy_integrated/app/routers/analysis.py:56-62 | The transcription record carries the transcript. Its message is the success message exactly when the transcript is not empty, and an empty transcript carries the no-text message. |
| `AnalysisRouter.SummaryResult` | flowy_integrated/app/routers/analysis.py:86-94 | The summary part has at most five stripped points. A missing client shows up as the `ValueError` text behind the stage prefix. A failed call shows up behind both prefixes. A reply gives its parsed points. The success message appears exactly when the summarizer returned. |
| `AnalysisRouter.ActionItemsResult` | flowy_integrated/app/routers/analysis.py:99-111 | The tasks part carries the stage's tasks, or none when the stage failed. Its message says whether there were tasks, or gives the error text behind the prefix. |
| `AnalysisRouter.FeedbackResult` | flowy_integrated/app/routers/analysis.py:115-133 | A missing ratio is 0.0 and a missing sentence list is empty. A failed stage gives 0.0, 0.0 and no sentences. |
| `AnalysisRouter.AnalysisResponse` | flowy_integrated/app/routers/analysis.py:32-142 | Refusals come in order: invalid JSON gives 400, another metadata error gives 400 with its text, no file gives 400, no pipeline gives 503. A failed transcription gives 400 for `ValueError` and 500 otherwise, with the matching detail. Every other request gets a result whose `meeting_info` is the parsed metadata. An empty transcript gives the fixed empty placeholders. Otherwise each part is a function of its own stage's outcome only, so one failing stage leaves the others' parts as they would be. |
| `AnalysisRouter.AnalyzeMeeting` | flowy_integrated/app/routers/analysis.py:24-142 | The endpoint answers as `AnalysisResponse` says. No collaborator is called when it refuses before transcription. Only the transcription is called when transcription fails or gives nothing. Otherwise the transcription and then the three stages are called, in order, each with the transcript. |
| `AnalysisRouter.RunSummaryStage` | flowy_integrated/app/routers/analysis.py:86-94 | The summary stage, run by calling `GetMeetingSummary`, builds the response `SummaryResult` describes: the points with the success message, or no points and the prefixed error. |
| `AnalysisRouter.RunActionItemsStage` | flowy_integrated/app/routers/analysis.py:99-111 | The action-item stage builds the response `ActionItemsResult` describes: the tasks with the message that says whether there were any, or no tasks and the prefixed error. |
| `AnalysisRouter.RunFeedbackStage` | flowy_integrated/app/routers/analysis.py:115-133 | The relevance stage builds the response `FeedbackResult` describes: missing fields default to 0.0 and no sentences, and a failure gives the all-zero feedback. |
| `AnalysisRouter.RecipientEmails` | flowy_integrated/app/routers/analysis.py:155-157 | There are no more recipients than attendees, and none is blank. |
| `AnalysisRouter.RecipientEmailsSound` | flowy_integrated/app/routers/analysis.py:155-157 | Every recipient is, unchanged, the e-mail of some attendee whose e-mail is present and not blank. |
| `AnalysisRouter.RecipientEmailsComplete` | flowy_integrated/app/routers/analysis.py:155-157 | Every attendee e-mail that is present and not blank is a recipient. |
| `AnalysisRouter.RecipientEmailsAppend` | flowy_integrated/app/routers/analysis.py:155-157 | Recipients keep attendee order: two blocks of attendees give the first block's recipients, then the second's. |
| `AnalysisRouter.RecipientEmailsEmpty` | flowy_integrated/app/routers/analysis.py:155-160 | There is no recipient exactly when no attendee has a usable e-mail. |
| `AnalysisRouter.EmailSubject` | flowy_integrated/app/routers/analysis.py:162 | The subject is the fixed prefix and suffix around the meeting subject as an f-string prints it (`None` as "None"). |
| `AnalysisRouter.SubjectRoundTrip` | flowy_integrated/app/routers/analysis.py:162 | The meeting subject can be read back whole from the e-mail subject. |
| `AnalysisRouter.ScheduledEmail` | flowy_integrated/app/routers/analysis.py:155-169 | No task when no attendee has a usable e-mail. Otherwise it is one task, with the recipients, the formatted subject and the analysis result. |
| `AnalysisRouter.BackgroundTasks.AddTask` | flowy_integrated/app/routers/analysis.py:164-169 | Adding a task appends it after the tasks already scheduled. |
| `AnalysisRouter.SendAnalysisEmailViaButton` | flowy_integrated/app/routers/analysis.py:149-171 | With no recipient it answers 400 and leaves the task list unchanged. Otherwise it appends exactly the one task of `ScheduledEmail` and answers 202 with the acceptance message. |

## Left out

- The chat-completion call is not modelled: prompt text, model name, temperature, token limit and `asyncio.to_thread`. It is a foreign network call, so its outcome (`CompletionOutcome`) is an input. The meeting subject and model name therefore play no part in `GetMeetingSummary`.
- `IsMarkerChar`: `\d` is taken as the ASCII digits 0-9. Python's `\d` on str patterns also matches other Unicode decimal digits, such as full-width digits.
- The transcription, action-item and relevance services are not part of this model. `app/services/stt_service.py`, `action_item_service.py` and `relevance_service.py` are only imported. Their results, or the exceptions they raise, are inputs. So is the attendee list the router passes to them.
- Pydantic validation is not modelled. That covers `MeetingMetadata(**metadata_dict)`, `ActionItemByAssignee(**task_dict)`, the feedback records and `EmailStr`. A metadata failure is the `Invalid` case of `MetadataParse`. A record that fails to build inside an analysis stage is part of that stage's `Err`. This includes a feedback key that is present but set to `None`.
- `app/models/meeting.py` is not part of this model. The records in `meeting_models.dfy` hold the fields the router builds or reads, plus fields it only passes through: `date`, `location` and the attendee `name` of the metadata, the assignee `name` and `tasks` of an action item, and the `sentence` of a feedback entry. The names of those pass-through fields are assumed, not read from the source.
- The model assumes two things about `app/models/meeting.py`. First, `info_n` is always a list, never `None`: `app/routers/analysis.py:98` and `app/routers/analysis.py:155-157` iterate over it outside any `try`, so a `None` there would raise, and that failure is not modelled. Second, `subj` is an optional string (`Option<string>`), which the e-mail subject renders as "None" when it is missing.
- Floating-point ratios are modelled as reals.
- `email_service.py` is not modelled: the deferred `send_analysis_report_email`, its configuration check, template rendering and SMTP send. It runs after the response, and the endpoint never sees its result. A scheduled task is recorded as its arguments.
- Not modelled: `config.py`, `main.py`, FastAPI dependency injection, HTTP serialisation, `print` logging and async scheduling. An injected client or pipeline is a boolean saying whether it is present.
- `AnalysisRouter.AnalyzeMeeting`: the ghost log records which collaborators were called. It does not record calls the action-item and relevance services make to the chat model inside themselves.
