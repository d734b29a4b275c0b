/**
 * The two endpoints of app/routers/analysis.py.
 *
 * `analyze_meeting_endpoint` is a fixed decision procedure around four
 * collaborators (the transcription service, the summarizer, the action-item
 * service and the relevance service). Each collaborator's outcome is an input
 * here; the summarizer is the modelled `GetMeetingSummary`, fed with the
 * chat-completion outcome. A ghost log records which collaborators were called.
 *
 * `send_analysis_email_via_button` picks the recipients, formats the subject
 * and schedules one background task; the task list is a class whose method
 * appends to it.
 */
module AnalysisRouter {
  import opened Wrappers
  import opened PyText
  import opened SummarizerService
  import opened MeetingModels

  // ---------------------------------------------------------------------------
  // Messages of the analysis endpoint
  // ---------------------------------------------------------------------------

  const InvalidJsonDetail: string := "제공된 메타데이터가 유효한 JSON 형식이 아닙니다."
  const MetadataErrorPrefix: string := "메타데이터 처리 오류: "
  const SttUnavailableDetail: string := "STT 서비스를 현재 사용할 수 없습니다."
  const SttErrorPrefix: string := "STT 처리 중 오류: "
  const SttUnexpectedErrorPrefix: string := "STT 처리 중 예기치 않은 서버 오류 발생: "
  const NoAudioFileDetail: string := "분석할 음성 파일(rc_file)이 제공되지 않았습니다."
  const SttEmptyMessage: string := "음성 파일에서 텍스트를 추출하지 못했거나 내용이 없습니다."
  const SttOkMessage: string := "음성 파일이 성공적으로 텍스트로 변환되었습니다."
  const NoSttSummaryMessage: string := "STT 결과가 없어 요약을 생성할 수 없습니다."
  const NoSttTasksMessage: string := "STT 결과가 없어 할 일을 추출할 수 없습니다."
  const SummaryOkMessage: string := "회의 내용이 성공적으로 요약되었습니다."
  const SummaryErrorPrefix: string := "요약 생성 중 오류가 발생했습니다: "
  const TasksOkMessage: string := "할 일이 성공적으로 추출 및 분배되었습니다."
  const NoTasksMessage: string := "추출된 할 일이 없습니다."
  const TasksErrorPrefix: string := "할 일 추출 중 오류가 발생했습니다: "

  // ---------------------------------------------------------------------------
  // Inputs of the analysis endpoint
  // ---------------------------------------------------------------------------

  /** `json.loads` followed by `MeetingMetadata(**metadata_dict)`: the metadata,
      a JSON syntax error, or any other failure with its text. */
  datatype MetadataParse = Parsed(meta: MeetingMetadata) | NotJson | Invalid(error: string)

  /** The uploaded recording; its bytes only matter to the transcription service. */
  datatype UploadFile = UploadFile(filename: string)

  /** The exception classes the router tells apart. */
  datatype ExceptionKind = ValueErrorKind | RuntimeErrorKind | OtherErrorKind

  /** What `process_uploaded_rc_file_to_text` gave: a text (possibly `None`) or
      an exception. */
  datatype SttOutcome = Transcribed(text: Option<string>) | SttRaised(kind: ExceptionKind, error: string)

  /** A stage that either returns its payload or raises; converting the reply to
      the response records is part of the stage, so a record that fails
      validation is an `Err` too. */
  datatype StageOutcome<T> = Ok(payload: T) | Err(error: string)

  /** The dictionary the relevance service returns; a key it lacks is `None`. */
  datatype FeedbackReply = FeedbackReply(
    necessaryRatio: Option<real>,
    unnecessaryRatio: Option<real>,
    representativeUnnecessary: Option<seq<RepresentativeUnnecessarySentence>>)

  /** The injected dependencies and what each collaborator does when called. */
  datatype Collaborators = Collaborators(
    clientPresent: bool,
    sttPipelineAvailable: bool,
    stt: SttOutcome,
    completion: CompletionOutcome,
    actionItems: StageOutcome<seq<ActionItemByAssignee>>,
    feedback: StageOutcome<FeedbackReply>)

  /** One call to a collaborator, with the transcript it was given. */
  datatype StageCall = Transcribe | Summarize(rcTxt: string) | AssignActionItems(rcTxt: string) | ScoreRelevance(rcTxt: string)

  /** The endpoint returns a result, or raises `HTTPException(status, detail)`. */
  datatype AnalyzeResponse = Analyzed(result: FullAnalysisResult) | HttpError(status: nat, detail: string)

  // ---------------------------------------------------------------------------
  // The result of each stage
  // ---------------------------------------------------------------------------

  /** `current_rc_txt` after transcription: the text, or "" when it is `None`
      or blank. */
  function Transcript(text: Option<string>): (t: string)
    ensures t == [] <==> text.None? || IsBlank(text.value)
    ensures t != [] ==> text == Some(t) && !IsBlank(t)
  {
    if text.None? || IsBlank(text.value) then "" else text.value
  }

  /** `stt_response_data`: the transcript, and a message saying whether there
      was anything in it. */
  function SttResult(text: Option<string>): (r: STTResponse)
    ensures r.rcTxt == Transcript(text)
    ensures r.message == SttOkMessage <==> r.rcTxt != []
    ensures r.rcTxt == [] ==> r.message == SttEmptyMessage
  {
    if text.None? || IsBlank(text.value) then STTResponse("", SttEmptyMessage)
    else STTResponse(text.value, SttOkMessage)
  }

  /** The summary stage: the summarizer's points with a success message, or no
      points and the text of whatever it raised. A missing client surfaces as
      the summarizer's `ValueError` text; a failed call carries both prefixes. */
  function SummaryResult(clientPresent: bool, rcTxt: string, completion: CompletionOutcome): (r: SummarizationResponse)
    ensures |r.summary| <= MaxSummaryPoints
    ensures forall k :: 0 <= k < |r.summary| ==> r.summary[k] != [] && IsStripped(r.summary[k])
    ensures !clientPresent ==> r == SummarizationResponse([], SummaryErrorPrefix + MissingClientMessage)
    ensures clientPresent && !IsBlank(rcTxt) && completion.CallRaised? ==>
      r == SummarizationResponse([], SummaryErrorPrefix + RuntimeErrorPrefix + completion.error)
    ensures clientPresent && !IsBlank(rcTxt) && completion.Completed? && completion.content.Some? ==>
      r == SummarizationResponse(SummaryPoints(completion.content.value), SummaryOkMessage)
    ensures clientPresent && completion == Completed(None) ==> r == SummarizationResponse([], SummaryOkMessage)
    ensures r.message == SummaryOkMessage <==> clientPresent && (IsBlank(rcTxt) || completion.Completed?)
  {
    match MeetingSummary(clientPresent, rcTxt, completion)
    case Returned(points) => SummarizationResponse(points, SummaryOkMessage)
    case RaisedValueError(m) =>
      assert (SummaryErrorPrefix + m)[0] != SummaryOkMessage[0];
      SummarizationResponse([], SummaryErrorPrefix + m)
    case RaisedRuntimeError(m) =>
      assert (SummaryErrorPrefix + m)[0] != SummaryOkMessage[0];
      SummarizationResponse([], SummaryErrorPrefix + m)
  }

  /** The action-item stage: the tasks with a message telling whether there
      were any, or no tasks and the error's text. */
  function ActionItemsResult(outcome: StageOutcome<seq<ActionItemByAssignee>>): (r: ActionAssignmentResponse)
    ensures r.tasks == (if outcome.Ok? then outcome.payload else [])
    ensures r.message == TasksOkMessage <==> outcome.Ok? && outcome.payload != []
    ensures r.message == NoTasksMessage <==> outcome.Ok? && outcome.payload == []
    ensures outcome.Err? ==> r.message == TasksErrorPrefix + outcome.error
  {
    match outcome
    case Ok(tasks) =>
      ActionAssignmentResponse(tasks, if tasks != [] then TasksOkMessage else NoTasksMessage)
    case Err(e) =>
      assert (TasksErrorPrefix + e)[3] != TasksOkMessage[3];
      assert (TasksErrorPrefix + e)[0] != NoTasksMessage[0];
      ActionAssignmentResponse([], TasksErrorPrefix + e)
  }

  /** The relevance stage: a missing ratio is 0.0 and a missing sentence list
      is empty; a failing stage gives 0.0, 0.0 and no sentences. */
  function FeedbackResult(outcome: StageOutcome<FeedbackReply>): (r: MeetingFeedbackResponse)
    ensures outcome.Err? ==> r == MeetingFeedbackResponse(0.0, 0.0, [])
    ensures outcome.Ok? ==> r.necessaryRatio == outcome.payload.necessaryRatio.GetOr(0.0)
    ensures outcome.Ok? ==> r.unnecessaryRatio == outcome.payload.unnecessaryRatio.GetOr(0.0)
    ensures outcome.Ok? ==> r.representativeUnnecessary == outcome.payload.representativeUnnecessary.GetOr([])
  {
    match outcome
    case Ok(reply) =>
      MeetingFeedbackResponse(
        reply.necessaryRatio.GetOr(0.0),
        reply.unnecessaryRatio.GetOr(0.0),
        reply.representativeUnnecessary.GetOr([]))
    case Err(_) => MeetingFeedbackResponse(0.0, 0.0, [])
  }

  // ---------------------------------------------------------------------------
  // analyze_meeting_endpoint
  // ---------------------------------------------------------------------------

  /** What the endpoint answers. Metadata errors come first (400), then a
      missing file (400), a missing transcription pipeline (503) and a failed
      transcription (400 for `ValueError`, 500 otherwise). Every other request
      is answered with a result that carries the parsed metadata unchanged;
      with an empty transcript its three analysis parts are the fixed empty
      placeholders, otherwise each part depends on its own stage's outcome
      only, so a failing stage cannot change another stage's part. */
  function AnalysisResponse(metadata: MetadataParse, rcFile: Option<UploadFile>, env: Collaborators): (r: AnalyzeResponse)
    ensures metadata.NotJson? ==> r == HttpError(400, InvalidJsonDetail)
    ensures metadata.Invalid? ==> r == HttpError(400, MetadataErrorPrefix + metadata.error)
    ensures metadata.Parsed? && rcFile.None? ==> r == HttpError(400, NoAudioFileDetail)
    ensures metadata.Parsed? && rcFile.Some? && !env.sttPipelineAvailable ==> r == HttpError(503, SttUnavailableDetail)
    ensures metadata.Parsed? && rcFile.Some? && env.sttPipelineAvailable && env.stt.SttRaised? ==>
      && r.HttpError?
      && r.status == (if env.stt.kind == ValueErrorKind then 400 else 500)
      && r.detail == (if env.stt.kind == OtherErrorKind then SttUnexpectedErrorPrefix else SttErrorPrefix) + env.stt.error
    ensures r.Analyzed? <==> metadata.Parsed? && rcFile.Some? && env.sttPipelineAvailable && env.stt.Transcribed?
    ensures r.Analyzed? ==> r.result.meetingInfo == metadata.meta && r.result.sttResult == Some(SttResult(env.stt.text))
    ensures r.Analyzed? && Transcript(env.stt.text) == [] ==>
      && r.result.summaryResult == SummarizationResponse([], NoSttSummaryMessage)
      && r.result.actionItemsResult == ActionAssignmentResponse([], NoSttTasksMessage)
      && r.result.feedbackResult == MeetingFeedbackResponse(0.0, 0.0, [])
    ensures r.Analyzed? && Transcript(env.stt.text) != [] ==>
      && r.result.summaryResult == SummaryResult(env.clientPresent, Transcript(env.stt.text), env.completion)
      && r.result.actionItemsResult == ActionItemsResult(env.actionItems)
      && r.result.feedbackResult == FeedbackResult(env.feedback)
  {
    match metadata
    case NotJson => HttpError(400, InvalidJsonDetail)
    case Invalid(e) => HttpError(400, MetadataErrorPrefix + e)
    case Parsed(meta) =>
      if rcFile.None? then HttpError(400, NoAudioFileDetail)
      else if !env.sttPipelineAvailable then HttpError(503, SttUnavailableDetail)
      else
        match env.stt
        case SttRaised(kind, e) =>
          if kind == OtherErrorKind then HttpError(500, SttUnexpectedErrorPrefix + e)
          else HttpError(if kind == ValueErrorKind then 400 else 500, SttErrorPrefix + e)
        case Transcribed(text) =>
          var t := Transcript(text);
          if t == [] then
            Analyzed(FullAnalysisResult(
              meta, Some(SttResult(text)),
              SummarizationResponse([], NoSttSummaryMessage),
              ActionAssignmentResponse([], NoSttTasksMessage),
              MeetingFeedbackResponse(0.0, 0.0, [])))
          else
            Analyzed(FullAnalysisResult(
              meta, Some(SttResult(text)),
              SummaryResult(env.clientPresent, t, env.completion),
              ActionItemsResult(env.actionItems),
              FeedbackResult(env.feedback)))
  }

  /** `analyze_meeting_endpoint`. `invoked` lists the collaborators called, in
      order: none when the request is refused before transcription, only the
      transcription when it fails or yields nothing, and otherwise the
      transcription followed by all three analysis stages, each given the
      transcript. */
  method AnalyzeMeeting(metadata: MetadataParse, rcFile: Option<UploadFile>, env: Collaborators)
    returns (response: AnalyzeResponse, ghost invoked: seq<StageCall>)
    ensures response == AnalysisResponse(metadata, rcFile, env)
    ensures invoked == [] <==> !(metadata.Parsed? && rcFile.Some? && env.sttPipelineAvailable)
    ensures response.HttpError? ==> invoked == [] || invoked == [Transcribe]
    ensures response.Analyzed? ==>
      var t := Transcript(env.stt.text);
      invoked == if t == [] then [Transcribe] else [Transcribe, Summarize(t), AssignActionItems(t), ScoreRelevance(t)]
  {
    invoked := [];
    var meetingInfoData: MeetingMetadata;
    match metadata {
      case NotJson =>
        response := HttpError(400, InvalidJsonDetail);
        return;
      case Invalid(e) =>
        response := HttpError(400, MetadataErrorPrefix + e);
        return;
      case Parsed(meta) =>
        meetingInfoData := meta;
    }

    var currentRcTxt := "";
    var sttResponseData: Option<STTResponse> := None;
    if rcFile.Some? {
      if !env.sttPipelineAvailable {
        response := HttpError(503, SttUnavailableDetail);
        return;
      }
      invoked := invoked + [Transcribe];
      match env.stt {
        case SttRaised(kind, e) =>
          if kind == ValueErrorKind || kind == RuntimeErrorKind {
            response := HttpError(if kind == ValueErrorKind then 400 else 500, SttErrorPrefix + e);
          } else {
            response := HttpError(500, SttUnexpectedErrorPrefix + e);
          }
          return;
        case Transcribed(transcribedText) =>
          if transcribedText.None? || IsBlank(transcribedText.value) {
            currentRcTxt := "";
            sttResponseData := Some(STTResponse("", SttEmptyMessage));
          } else {
            currentRcTxt := transcribedText.value;
            sttResponseData := Some(STTResponse(currentRcTxt, SttOkMessage));
          }
      }
    } else {
      response := HttpError(400, NoAudioFileDetail);
      return;
    }

    assert currentRcTxt == Transcript(env.stt.text);
    assert sttResponseData == Some(SttResult(env.stt.text));
    if currentRcTxt == [] && rcFile.Some? {
      response := Analyzed(FullAnalysisResult(
        meetingInfoData, sttResponseData,
        SummarizationResponse([], NoSttSummaryMessage),
        ActionAssignmentResponse([], NoSttTasksMessage),
        MeetingFeedbackResponse(0.0, 0.0, [])));
      return;
    }

    invoked := invoked + [Summarize(currentRcTxt)];
    var summaryResultData := RunSummaryStage(env.clientPresent, currentRcTxt, env.completion);
    invoked := invoked + [AssignActionItems(currentRcTxt)];
    var actionItemsResultData := RunActionItemsStage(env.actionItems);
    invoked := invoked + [ScoreRelevance(currentRcTxt)];
    var feedbackResultData := RunFeedbackStage(env.feedback);
    response := Analyzed(FullAnalysisResult(
      meetingInfoData, sttResponseData, summaryResultData, actionItemsResultData, feedbackResultData));
  }

  /** The summary block of the endpoint: it calls the summarizer and turns what
      it returns or raises into the summary part. */
  method RunSummaryStage(clientPresent: bool, currentRcTxt: string, completion: CompletionOutcome)
    returns (summaryResultData: SummarizationResponse)
    ensures summaryResultData == SummaryResult(clientPresent, currentRcTxt, completion)
  {
    ghost var llmCalls: nat;
    var summaryOutcome;
    summaryOutcome, llmCalls := GetMeetingSummary(clientPresent, currentRcTxt, completion);
    match summaryOutcome {
      case Returned(summaryPoints) =>
        summaryResultData := SummarizationResponse(summaryPoints, SummaryOkMessage);
      case RaisedValueError(m) =>
        summaryResultData := SummarizationResponse([], SummaryErrorPrefix + m);
      case RaisedRuntimeError(m) =>
        summaryResultData := SummarizationResponse([], SummaryErrorPrefix + m);
    }
  }

  /** The action-item block of the endpoint: the `try`/`except` statement as
      the endpoint runs it, proved to give what `ActionItemsResult`, the
      stage's meaning used by `AnalysisResponse`, states. */
  method RunActionItemsStage(outcome: StageOutcome<seq<ActionItemByAssignee>>)
    returns (actionItemsResultData: ActionAssignmentResponse)
    ensures actionItemsResultData == ActionItemsResult(outcome)
  {
    match outcome {
      case Ok(tasks) =>
        actionItemsResultData := ActionAssignmentResponse(tasks, if tasks != [] then TasksOkMessage else NoTasksMessage);
      case Err(e) =>
        actionItemsResultData := ActionAssignmentResponse([], TasksErrorPrefix + e);
    }
  }

  /** The relevance-feedback block of the endpoint: the `try`/`except`
      statement as the endpoint runs it, proved to give what `FeedbackResult`,
      the stage's meaning used by `AnalysisResponse`, states. */
  method RunFeedbackStage(outcome: StageOutcome<FeedbackReply>)
    returns (feedbackResultData: MeetingFeedbackResponse)
    ensures feedbackResultData == FeedbackResult(outcome)
  {
    match outcome {
      case Ok(reply) =>
        feedbackResultData := MeetingFeedbackResponse(
          reply.necessaryRatio.GetOr(0.0),
          reply.unnecessaryRatio.GetOr(0.0),
          reply.representativeUnnecessary.GetOr([]));
      case Err(_) =>
        feedbackResultData := MeetingFeedbackResponse(0.0, 0.0, []);
    }
  }

  // ---------------------------------------------------------------------------
  // send_analysis_email_via_button
  // ---------------------------------------------------------------------------

  const NoRecipientsDetail: string := "분석 결과에 유효한 수신자 이메일 주소가 없거나, 참석자 정보에 이메일이 없습니다."
  const EmailAcceptedMessage: string := "회의록 분석 결과 이메일 발송 요청이 접수되었습니다. 백그라운드에서 처리됩니다."
  const SubjectPrefix: string := "[Flowy] '"
  const SubjectSuffix: string := "' 회의 분석 결과입니다."

  datatype SendEmailRequest = SendEmailRequest(analysisResult: FullAnalysisResult)

  /** A scheduled call of `send_analysis_report_email` with its arguments. */
  datatype EmailTask = SendAnalysisReportEmail(recipients: seq<string>, subject: string, analysisData: FullAnalysisResult)

  /** The endpoint answers 202 with a message, or raises `HTTPException`. */
  datatype EmailResponse = Accepted(status: nat, message: string) | Rejected(status: nat, detail: string)

  /** An attendee whose e-mail is present and not blank. */
  predicate HasUsableEmail(a: AttendeeInfo) {
    a.email.Some? && !IsBlank(a.email.value)
  }

  /** The recipients: the usable e-mails, unchanged, in attendee order. */
  function RecipientEmails(attendees: seq<AttendeeInfo>): (emails: seq<string>)
    ensures |emails| <= |attendees|
    ensures forall k :: 0 <= k < |emails| ==> !IsBlank(emails[k])
  {
    if attendees == [] then []
    else
      (if HasUsableEmail(attendees[0]) then [attendees[0].email.value] else [])
      + RecipientEmails(attendees[1..])
  }

  /** Every recipient is some attendee's usable e-mail. */
  lemma {:induction false} RecipientEmailsSound(attendees: seq<AttendeeInfo>, e: string)
    requires e in RecipientEmails(attendees)
    ensures exists k :: 0 <= k < |attendees| && HasUsableEmail(attendees[k]) && attendees[k].email.value == e
  {
    if !(HasUsableEmail(attendees[0]) && attendees[0].email.value == e) {
      RecipientEmailsSound(attendees[1..], e);
      var k :| 0 <= k < |attendees[1..]| && HasUsableEmail(attendees[1..][k]) && attendees[1..][k].email.value == e;
      assert attendees[k + 1] == attendees[1..][k];
    }
  }

  /** Every attendee's usable e-mail is a recipient. */
  lemma {:induction false} RecipientEmailsComplete(attendees: seq<AttendeeInfo>, k: nat)
    requires k < |attendees| && HasUsableEmail(attendees[k])
    ensures attendees[k].email.value in RecipientEmails(attendees)
  {
    if k > 0 {
      assert attendees[1..][k - 1] == attendees[k];
      RecipientEmailsComplete(attendees[1..], k - 1);
    }
  }

  /** Recipients keep attendee order: the recipients of two consecutive blocks
      of attendees are those of the first block followed by those of the second. */
  lemma {:induction false} RecipientEmailsAppend(a: seq<AttendeeInfo>, b: seq<AttendeeInfo>)
    ensures RecipientEmails(a + b) == RecipientEmails(a) + RecipientEmails(b)
  {
    if a == [] {
      assert a + b == b;
    } else {
      var head := if HasUsableEmail(a[0]) then [a[0].email.value] else [];
      assert (a + b)[0] == a[0];
      assert (a + b)[1..] == a[1..] + b;
      assert RecipientEmails(a + b) == head + RecipientEmails(a[1..] + b);
      RecipientEmailsAppend(a[1..], b);
      assert RecipientEmails(a) == head + RecipientEmails(a[1..]);
    }
  }

  /** There are no recipients exactly when no attendee has a usable e-mail. */
  lemma {:induction false} RecipientEmailsEmpty(attendees: seq<AttendeeInfo>)
    ensures RecipientEmails(attendees) == [] <==> forall k :: 0 <= k < |attendees| ==> !HasUsableEmail(attendees[k])
  {
    if RecipientEmails(attendees) != [] {
      RecipientEmailsSound(attendees, RecipientEmails(attendees)[0]);
    }
    forall k | 0 <= k < |attendees| && HasUsableEmail(attendees[k])
      ensures RecipientEmails(attendees) != []
    {
      RecipientEmailsComplete(attendees, k);
    }
  }

  /** How an f-string renders an optional text: `None` prints as "None". */
  function FormatOptional(s: Option<string>): string {
    match s
    case Some(v) => v
    case None => "None"
  }

  /** The e-mail subject for a meeting subject. */
  function EmailSubject(subj: Option<string>): (s: string)
    ensures |s| == |SubjectPrefix| + |FormatOptional(subj)| + |SubjectSuffix|
  {
    SubjectPrefix + FormatOptional(subj) + SubjectSuffix
  }

  /** Reads the meeting subject back out of an e-mail subject. */
  function SubjectTitle(s: string): (title: Option<string>)
    ensures title.Some? ==> |title.value| + |SubjectPrefix| + |SubjectSuffix| == |s|
  {
    if |s| >= |SubjectPrefix| + |SubjectSuffix|
       && s[..|SubjectPrefix|] == SubjectPrefix
       && s[|s| - |SubjectSuffix|..] == SubjectSuffix
    then Some(s[|SubjectPrefix|..|s| - |SubjectSuffix|])
    else None
  }

  /** The subject wraps the rendered meeting subject and gives it back whole. */
  lemma SubjectRoundTrip(subj: Option<string>)
    ensures SubjectTitle(EmailSubject(subj)) == Some(FormatOptional(subj))
  {
    var t := FormatOptional(subj);
    var s := EmailSubject(subj);
    assert s[..|SubjectPrefix|] == SubjectPrefix;
    assert s[|s| - |SubjectSuffix|..] == SubjectSuffix;
    assert s[|SubjectPrefix|..|s| - |SubjectSuffix|] == t;
  }

  /** The task the e-mail endpoint schedules for an analysis result: none when
      no attendee has a usable e-mail, otherwise one report e-mail to the
      recipients, with the formatted subject and the result itself. */
  function ScheduledEmail(analysis: FullAnalysisResult): (task: Option<EmailTask>)
    ensures task.None? <==> forall k :: 0 <= k < |analysis.meetingInfo.infoN| ==> !HasUsableEmail(analysis.meetingInfo.infoN[k])
    ensures task.Some? ==>
      task.value == SendAnalysisReportEmail(RecipientEmails(analysis.meetingInfo.infoN), EmailSubject(analysis.meetingInfo.subj), analysis)
  {
    RecipientEmailsEmpty(analysis.meetingInfo.infoN);
    var recipients := RecipientEmails(analysis.meetingInfo.infoN);
    if recipients == [] then None
    else Some(SendAnalysisReportEmail(recipients, EmailSubject(analysis.meetingInfo.subj), analysis))
  }

  /** FastAPI's `BackgroundTasks`: the tasks to run after the response, in the
      order they were added. */
  class BackgroundTasks {
    var tasks: seq<EmailTask>

    constructor()
      ensures tasks == []
    {
      tasks := [];
    }

    method AddTask(task: EmailTask)
      modifies this
      ensures tasks == old(tasks) + [task]
    {
      tasks := tasks + [task];
    }
  }

  /** `send_analysis_email_via_button`: refuses with 400 and schedules nothing
      when there is no recipient; otherwise schedules exactly one task and
      answers 202. */
  method SendAnalysisEmailViaButton(requestData: SendEmailRequest, backgroundTasks: BackgroundTasks)
    returns (response: EmailResponse)
    modifies backgroundTasks
    ensures var task := ScheduledEmail(requestData.analysisResult);
      && (task.None? ==> response == Rejected(400, NoRecipientsDetail) && backgroundTasks.tasks == old(backgroundTasks.tasks))
      && (task.Some? ==> response == Accepted(202, EmailAcceptedMessage) && backgroundTasks.tasks == old(backgroundTasks.tasks) + [task.value])
  {
    var analysisData := requestData.analysisResult;
    var recipientsEmails := RecipientEmails(analysisData.meetingInfo.infoN);
    if recipientsEmails == [] {
      response := Rejected(400, NoRecipientsDetail);
      return;
    }
    var emailSubject := EmailSubject(analysisData.meetingInfo.subj);
    backgroundTasks.AddTask(SendAnalysisReportEmail(recipientsEmails, emailSubject, analysisData));
    response := Accepted(202, EmailAcceptedMessage);
  }
}
