/**
 * The request and response records that app/routers/analysis.py builds and
 * reads (they are declared in app/models/meeting.py, which is not part of this
 * model). They hold the fields the router builds or reads, plus fields it only
 * passes through (`date`, `location`, the attendee `name`, the assignee `name`
 * and `tasks`, the feedback `sentence`), whose names are assumed. Pydantic
 * validation is not modelled: a value of these types is one that validated.
 */
module MeetingModels {
  import opened Wrappers

  /** One attendee: a name and, optionally, an e-mail address. */
  datatype AttendeeInfo = AttendeeInfo(name: string, email: Option<string>)

  /** The meeting metadata sent with the recording; `infoN` is the ordered
      attendee list. */
  datatype MeetingMetadata = MeetingMetadata(
    subj: Option<string>,
    date: Option<string>,
    location: Option<string>,
    infoN: seq<AttendeeInfo>)

  /** The transcript (possibly "") and a message about the transcription. */
  datatype STTResponse = STTResponse(rcTxt: string, message: string)

  datatype SummarizationResponse = SummarizationResponse(summary: seq<string>, message: string)

  /** The tasks the action-item stage gave one attendee. */
  datatype ActionItemByAssignee = ActionItemByAssignee(name: string, tasks: seq<string>)

  datatype ActionAssignmentResponse = ActionAssignmentResponse(tasks: seq<ActionItemByAssignee>, message: string)

  datatype RepresentativeUnnecessarySentence = RepresentativeUnnecessarySentence(sentence: string)

  /** The relevance feedback; the ratios are floating point in the source and
      reals here. */
  datatype MeetingFeedbackResponse = MeetingFeedbackResponse(
    necessaryRatio: real,
    unnecessaryRatio: real,
    representativeUnnecessary: seq<RepresentativeUnnecessarySentence>)

  /** What the analysis endpoint returns and the e-mail endpoint receives. */
  datatype FullAnalysisResult = FullAnalysisResult(
    meetingInfo: MeetingMetadata,
    sttResult: Option<STTResponse>,
    summaryResult: SummarizationResponse,
    actionItemsResult: ActionAssignmentResponse,
    feedbackResult: MeetingFeedbackResponse)
}
