/**
 * The report generator of the web page: a transcript pasted by the user is sent, with a
 * fixed instruction, to a chat-completion service; the completion becomes the report and
 * is saved as a PDF. The service's answer and the success of the PDF step are parameters;
 * the requests sent and the documents saved are recorded, in order.
 */
module ReportPipeline {
  import opened Wrappers

  const ErrorMessage := "Error generating report. Please try again."

  const ChatModel := "gpt-4o-mini"
  const Temperature: real := 0.7

  const SystemPrompt :=
    "You are a medical conversation analyzer. Analyze the conversation between a medical assistant and a patient and provide a detailed analysis addressing these areas:\n"
    + "    \n"
    + "  Initial Assessment:\n"
    + "  1. How the patient is feeling after taking their medication\n"
    + "  2. Any discomfort or unusual sensations reported\n"
    + "  3. Changes in physical condition\n"
    + "  \n"
    + "  Follow-up Assessment:\n"
    + "  1. Patient's current mood\n"
    + "  2. Any difficulties with daily activities\n"
    + "  3. Patient concerns or worries\n"
    + "  \n"
    + "  Final Notes:\n"
    + "  1. Any requests for assistance or support\n"
    + "  \n"
    + "  Please provide a natural, flowing analysis that addresses each of these points in a clear, readable format. Do not include a summary at the end."

  const UserPromptPrefix :=
    "Please create a brief report from this call transcript, at the top list two lines the first should be 'Patient Name: Aidan Guo' the second should be 'Medication: 80mg Vyvanse': \n\n"
  const PdfTitle := "Medical Conversation Report"
  const PdfFileName := "medical-report.pdf"

  // ---------------------------------------------------------------- String.prototype.trim

  /** ECMAScript WhiteSpace and LineTerminator code points: what trim() removes. */
  predicate IsJsWhitespace(c: char)
  {
    || c == '\t' || c == '\n' || c == '\U{000B}' || c == '\U{000C}' || c == '\r' || c == ' '
    || c == '\U{00A0}' || c == '\U{1680}' || ('\U{2000}' <= c <= '\U{200A}')
    || c == '\U{2028}' || c == '\U{2029}' || c == '\U{202F}' || c == '\U{205F}'
    || c == '\U{3000}' || c == '\U{FEFF}'
  }

  /** Every character is whitespace (the empty string included). */
  predicate IsBlank(s: string)
  {
    forall i :: 0 <= i < |s| ==> IsJsWhitespace(s[i])
  }

  /** Drops the leading whitespace. */
  function TrimStart(s: string): (r: string)
    ensures |r| <= |s| && r == s[|s| - |r|..]
    ensures r != [] ==> !IsJsWhitespace(r[0])
  {
    if s != [] && IsJsWhitespace(s[0]) then TrimStart(s[1..]) else s
  }

  /** Drops the trailing whitespace. */
  function TrimEnd(s: string): (r: string)
    ensures |r| <= |s| && r == s[..|r|]
    ensures r != [] ==> !IsJsWhitespace(r[|r| - 1])
  {
    if s != [] && IsJsWhitespace(s[|s| - 1]) then TrimEnd(s[..|s| - 1]) else s
  }

  /** JavaScript's `trim()`: both ends stripped, so the result neither begins nor ends with whitespace. */
  function Trim(s: string): (r: string)
    ensures |r| <= |s|
    ensures r != [] ==> !IsJsWhitespace(r[0]) && !IsJsWhitespace(r[|r| - 1])
  {
    TrimEnd(TrimStart(s))
  }

  /** Everything TrimStart drops is whitespace. */
  lemma {:induction false} TrimStartDropsWhitespace(s: string, i: nat)
    requires i < |s| - |TrimStart(s)|
    ensures IsJsWhitespace(s[i])
  {
    if i > 0 {
      TrimStartDropsWhitespace(s[1..], i - 1);
    }
  }

  /** Everything TrimEnd drops is whitespace. */
  lemma {:induction false} TrimEndDropsWhitespace(s: string, i: nat)
    requires |TrimEnd(s)| <= i < |s|
    ensures IsJsWhitespace(s[i])
  {
    if i < |s| - 1 {
      TrimEndDropsWhitespace(s[..|s| - 1], i);
    }
  }

  /** trim() leaves nothing exactly when the text is whitespace only. */
  lemma TrimEmptyIffBlank(s: string)
    ensures Trim(s) == "" <==> IsBlank(s)
  {
    var t := TrimStart(s);
    if !IsBlank(s) {
      var k :| 0 <= k < |s| && !IsJsWhitespace(s[k]);
      if k < |s| - |t| {
        TrimStartDropsWhitespace(s, k);
      }
      var j := k - (|s| - |t|);
      assert t[j] == s[k];
      if j >= |TrimEnd(t)| {
        TrimEndDropsWhitespace(t, j);
      }
    }
  }

  // ---------------------------------------------------------------- the completion request

  datatype ChatMessage = ChatMessage(role: string, content: string)
  datatype ChatRequest = ChatRequest(model: string, messages: seq<ChatMessage>, temperature: real)

  /** The one request sent for a transcript: the fixed instruction, then the transcript verbatim. */
  function ReportRequest(transcriptInput: string): (r: ChatRequest)
    ensures r.model == ChatModel && r.temperature == Temperature
    ensures |r.messages| == 2
    ensures r.messages[0] == ChatMessage("system", SystemPrompt)
    ensures r.messages[1].role == "user"
  {
    ChatRequest(ChatModel, [ChatMessage("system", SystemPrompt), ChatMessage("user", UserPromptPrefix + transcriptInput)], Temperature)
  }

  /** The user message is the fixed prefix followed by the transcript, verbatim and whole. */
  lemma ReportRequestEmbedsTranscript(transcriptInput: string)
    ensures var content := ReportRequest(transcriptInput).messages[1].content;
      && |content| == |UserPromptPrefix| + |transcriptInput|
      && content[..|UserPromptPrefix|] == UserPromptPrefix
      && content[|UserPromptPrefix|..] == transcriptInput
  {
  }

  /** The service's answer: a failed request, or the content of each choice (None when null). */
  datatype Completion = RequestFailed | Completed(choices: seq<Option<string>>)

  /**
   * The report text of a completion: the first choice's content, or "" when it has none.
   * None (an exception in the page) when the request failed or there is no first choice.
   */
  function CompletionText(c: Completion): (r: Option<string>)
    ensures r.None? <==> c.RequestFailed? || |c.choices| == 0
    ensures r.Some? && c.choices[0].None? ==> r.value == ""
    ensures r.Some? && c.choices[0].Some? ==> r.value == c.choices[0].value
  {
    if c.RequestFailed? || |c.choices| == 0 then None
    else Some(if c.choices[0].Some? then c.choices[0].value else "")
  }

  // ---------------------------------------------------------------- the PDF

  /** The document saved: a title at (20, 20) in 16pt, the body at (20, 40) in 12pt, wrapped at width 170. */
  datatype PdfDocument = PdfDocument(
    fileName: string,
    title: string, titleSize: int, titleX: int, titleY: int,
    body: string, bodySize: int, bodyX: int, bodyY: int, wrapWidth: int)

  function ReportPdf(body: string): (r: PdfDocument)
    ensures r.body == body && r.title == PdfTitle && r.fileName == PdfFileName
    ensures r.titleY < r.bodyY && r.titleX == r.bodyX
    ensures r.titleX == 20 && r.titleY == 20 && r.bodyX == 20 && r.bodyY == 40
    ensures r.titleSize == 16 && r.bodySize == 12 && r.wrapWidth == 170
  {
    PdfDocument(PdfFileName, PdfTitle, 16, 20, 20, body, 12, 20, 40, 170)
  }

  // ---------------------------------------------------------------- the page state

  class ReportGenerator {
    var report: string
    var isGenerating: bool
    /** Every completion request sent. */
    var requests: seq<ChatRequest>
    /** Every PDF saved. */
    var savedPdfs: seq<PdfDocument>

    constructor ()
      ensures report == "" && !isGenerating && requests == [] && savedPdfs == []
    {
      report, isGenerating, requests, savedPdfs := "", false, [], [];
    }

    /**
     * The generate button. Whitespace-only input does nothing at all; any other input runs
     * one generation.
     */
    method GenerateReport(transcriptInput: string, completion: Completion, pdfOk: bool)
      modifies this
      ensures IsBlank(transcriptInput) ==>
        report == old(report) && isGenerating == old(isGenerating)
        && requests == old(requests) && savedPdfs == old(savedPdfs)
      ensures !IsBlank(transcriptInput) ==>
        !isGenerating && requests == old(requests) + [ReportRequest(transcriptInput)]
      ensures !IsBlank(transcriptInput) && CompletionText(completion).Some? && pdfOk ==>
        report == CompletionText(completion).value
        && savedPdfs == old(savedPdfs) + [ReportPdf(CompletionText(completion).value)]
      ensures !IsBlank(transcriptInput) && (CompletionText(completion).None? || !pdfOk) ==>
        report == ErrorMessage && savedPdfs == old(savedPdfs)
    {
      TrimEmptyIffBlank(transcriptInput);
      if Trim(transcriptInput) == "" {
        return;
      }
      RunGeneration(transcriptInput, completion, pdfOk);
    }

    /**
     * One generation: one request is sent; the report becomes the completion text and a PDF
     * of it is saved, or, when the request or the PDF step fails, the report becomes the
     * fixed error message and no PDF is saved; the busy flag is clear at the end either way.
     */
    method RunGeneration(transcriptInput: string, completion: Completion, pdfOk: bool)
      modifies this
      ensures !isGenerating && requests == old(requests) + [ReportRequest(transcriptInput)]
      ensures CompletionText(completion).Some? && pdfOk ==>
        report == CompletionText(completion).value
        && savedPdfs == old(savedPdfs) + [ReportPdf(CompletionText(completion).value)]
      ensures CompletionText(completion).None? || !pdfOk ==>
        report == ErrorMessage && savedPdfs == old(savedPdfs)
    {
      isGenerating := true;
      requests := requests + [ReportRequest(transcriptInput)];
      var text := CompletionText(completion);
      if text.None? {
        report := ErrorMessage;
      } else {
        report := text.value;
        if pdfOk {
          savedPdfs := savedPdfs + [ReportPdf(text.value)];
        } else {
          report := ErrorMessage;
        }
      }
      isGenerating := false;
    }
  }

  /** A client's view: blank input is ignored; a failing service leaves only the error message. */
  method ScenarioReports()
  {
    var g := new ReportGenerator();
    g.GenerateReport(" \n\t", RequestFailed, true);
    assert g.requests == [] && g.report == "";
    var input := "patient reports mild nausea";
    assert !IsJsWhitespace(input[0]);
    g.GenerateReport(input, Completed([Some("Patient Name: X\nMedication: Y\n")]), true);
    assert g.report == "Patient Name: X\nMedication: Y\n" && |g.savedPdfs| == 1 && !g.isGenerating;
    g.GenerateReport(input, RequestFailed, true);
    assert g.report == ErrorMessage && |g.savedPdfs| == 1 && |g.requests| == 2;
  }
}
