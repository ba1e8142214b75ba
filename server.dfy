/**
 * The backend: an in-memory store of call summaries keyed by call id, written by the
 * call-ended webhook and by the end of an LLM socket session and read by the summary
 * endpoint; the message loop of the LLM socket; the cut-off of a response stream that a
 * newer request has superseded; and the endpoint that registers a call upstream.
 *
 * The voice platform's client, its signature check, JSON decoding, the language-model
 * client and the clock are outside the model: their outcomes are parameters.
 */
module Server {
  import opened Wrappers
  import opened SummaryFormat

  /** Milliseconds since the epoch, supplied by the caller. */
  type Timestamp = int

  /** What the store keeps for one call. */
  datatype CallSummary = CallSummary(
    transcript: string,
    transcriptObject: seq<Turn>,
    startTimestamp: Timestamp,
    endTimestamp: Timestamp)

  // ---------------------------------------------------------------- register endpoint

  /** The registration the endpoint asks the voice platform for. */
  datatype RegisterCallRequest = RegisterCallRequest(
    agentId: string,
    audioWebsocketProtocol: string,
    audioEncoding: string,
    sampleRate: int)

  function RegisterCallRequestFor(agentId: string): (r: RegisterCallRequest)
    ensures r.agentId == agentId && r.sampleRate == 24000
    ensures r.audioWebsocketProtocol == "web" && r.audioEncoding == "s16le"
  {
    RegisterCallRequest(agentId, "web", "s16le", 24000)
  }

  /** The part of the platform's call detail the web page reads. */
  datatype CallDetail = CallDetail(callId: string, sampleRate: int)

  /** How the platform's registration call came back. */
  datatype UpstreamOutcome =
    | UpstreamRaised
    | UpstreamReturned(statusCode: int, callDetail: CallDetail)

  /** What the register endpoint answers. */
  datatype RegisterReply =
    | DetailJson(detail: CallDetail)   // 200, the call detail as JSON
    | NullJson                         // 200, the JSON value null: the handler returned nothing
    | RegisterFailed                   // 500, "Internal Server Error"

  function RegisterReplyStatus(r: RegisterReply): int
  {
    if r.RegisterFailed? then 500 else 200
  }

  /**
   * The register endpoint. The agent id comes from the environment (None when it is not
   * set) and `platform` is the voice platform's registration call. The reply is the call
   * detail only when the platform answered 201, a 500 when anything raised (a missing
   * agent id or the platform call), and otherwise no value at all (still a 200).
   */
  function RegisterCallOnYourServer(agentId: Option<string>, platform: RegisterCallRequest -> UpstreamOutcome): (r: RegisterReply)
    ensures agentId.None? ==> r.RegisterFailed?
    ensures agentId.Some? ==>
      var upstream := platform(RegisterCallRequestFor(agentId.value));
      && (r.DetailJson? <==> upstream.UpstreamReturned? && upstream.statusCode == 201)
      && (r.DetailJson? ==> r.detail == upstream.callDetail)
      && (r.RegisterFailed? <==> upstream.UpstreamRaised?)
    ensures RegisterReplyStatus(r) == 500 <==> r.RegisterFailed?
  {
    if agentId.None? then RegisterFailed
    else
      match platform(RegisterCallRequestFor(agentId.value))
      case UpstreamRaised => RegisterFailed
      case UpstreamReturned(status, detail) => if status == 201 then DetailJson(detail) else NullJson
  }

  // ---------------------------------------------------------------- webhook

  const CallEndedEvent := "call_ended"

  /** The `call` object of a webhook body; a key the body lacks is None. */
  datatype CallRecord = CallRecord(
    callId: Option<string>,
    transcript: Option<string>,
    transcriptObject: Option<seq<Turn>>,
    startTimestamp: Option<Timestamp>,
    endTimestamp: Option<Timestamp>)

  /** A decoded webhook body: its `event` and `call` keys. */
  datatype WebhookBody = WebhookBody(event: Option<string>, call: Option<CallRecord>)

  datatype WebhookReply =
    | NoContent            // 204
    | InvalidSignature     // 400, "Invalid signature"
    | WebhookFailed        // 500, "Internal Server Error"

  function WebhookStatus(r: WebhookReply): int
  {
    match r
    case NoContent => 204
    case InvalidSignature => 400
    case WebhookFailed => 500
  }

  /** A call record that has every key the webhook copies. */
  predicate IsComplete(c: CallRecord)
  {
    c.callId.Some? && c.transcript.Some? && c.transcriptObject.Some?
    && c.startTimestamp.Some? && c.endTimestamp.Some?
  }

  /** The four fields the webhook copies out of a complete call record. */
  function CopiedSummary(c: CallRecord): (r: CallSummary)
    requires IsComplete(c)
    ensures r.transcript == c.transcript.value && r.transcriptObject == c.transcriptObject.value
    ensures r.startTimestamp == c.startTimestamp.value && r.endTimestamp == c.endTimestamp.value
  {
    CallSummary(c.transcript.value, c.transcriptObject.value, c.startTimestamp.value, c.endTimestamp.value)
  }

  /** The webhook's reply together with the map it leaves behind. */
  datatype WebhookOutcome = WebhookOutcome(reply: WebhookReply, summaries: map<string, CallSummary>)

  /** A signed, decodable `call_ended` body whose call has every copied key: the one body that writes the map. */
  predicate StoresCall(body: Option<WebhookBody>, signatureValid: bool)
  {
    body.Some? && signatureValid && body.value.event == Some(CallEndedEvent)
    && body.value.call.Some? && IsComplete(body.value.call.value)
  }

  /**
   * The webhook as its authors meant it: a signed body that the handler gets through
   * without raising is answered 204 No Content.
   */
  function WebhookIntended(m: map<string, CallSummary>, body: Option<WebhookBody>, signatureValid: bool): (r: WebhookOutcome)
    ensures WebhookStatus(r.reply) == 400 <==> body.Some? && !signatureValid
    ensures r.reply == NoContent <==>
      body.Some? && signatureValid && (body.value.event == Some(CallEndedEvent) ==> StoresCall(body, signatureValid))
    ensures StoresCall(body, signatureValid) ==>
      r.summaries == m[body.value.call.value.callId.value := CopiedSummary(body.value.call.value)]
    ensures !StoresCall(body, signatureValid) ==> r.summaries == m
  {
    if body.None? then WebhookOutcome(WebhookFailed, m)
    else if !signatureValid then WebhookOutcome(InvalidSignature, m)
    else if body.value.event != Some(CallEndedEvent) then WebhookOutcome(NoContent, m)
    else if !StoresCall(body, signatureValid) then WebhookOutcome(WebhookFailed, m)
    else
      var call := body.value.call.value;
      WebhookOutcome(NoContent, m[call.callId.value := CopiedSummary(call)])
  }

  /**
   * The webhook as the code runs: the closing 204 response is built without the `content`
   * argument that the JSON response type requires, so building it raises and the handler's
   * catch-all answers 500. No body is ever answered 204, and a complete `call_ended` is
   * still stored first.
   */
  function WebhookAsWritten(m: map<string, CallSummary>, body: Option<WebhookBody>, signatureValid: bool): (r: WebhookOutcome)
    ensures r.reply != NoContent
    ensures WebhookStatus(r.reply) == 400 <==> body.Some? && !signatureValid
    ensures WebhookStatus(r.reply) == 500 <==> body.None? || signatureValid
    ensures r.summaries == WebhookIntended(m, body, signatureValid).summaries
  {
    var intended := WebhookIntended(m, body, signatureValid);
    if intended.reply == NoContent then intended.(reply := WebhookFailed) else intended
  }

  /** The two differ only where the intended handler answers 204: there the code answers 500. */
  lemma WebhookAsWrittenDiffersOnlyInNoContent(m: map<string, CallSummary>, body: Option<WebhookBody>, signatureValid: bool)
    ensures var w, i := WebhookAsWritten(m, body, signatureValid), WebhookIntended(m, body, signatureValid);
      && w.summaries == i.summaries
      && (w.reply != i.reply <==> i.reply == NoContent)
      && (i.reply == NoContent ==> w.reply == WebhookFailed)
  {
  }

  /**
   * The inputs that show it: a signed `call_started` is answered 500 where 204 was meant,
   * and a signed, complete `call_ended` is stored and still answered 500.
   */
  lemma SignedWebhookAnswers500(m: map<string, CallSummary>, call: CallRecord)
    requires IsComplete(call)
    ensures var started := Some(WebhookBody(Some("call_started"), None));
      && WebhookAsWritten(m, started, true) == WebhookOutcome(WebhookFailed, m)
      && WebhookIntended(m, started, true) == WebhookOutcome(NoContent, m)
    ensures var ended := Some(WebhookBody(Some(CallEndedEvent), Some(call)));
      && WebhookAsWritten(m, ended, true) == WebhookOutcome(WebhookFailed, m[call.callId.value := CopiedSummary(call)])
      && WebhookIntended(m, ended, true) == WebhookOutcome(NoContent, m[call.callId.value := CopiedSummary(call)])
  {
  }

  // ---------------------------------------------------------------- summary endpoint

  const SummaryNotFound := "Call summary not found"

  datatype SummaryReply =
    | Found(summary: CallSummary)          // 200, the stored entry
    | NotFound(status: int, error: string)  // 404

  // ---------------------------------------------------------------- LLM socket

  /** A decoded socket message: its `response_id` and `transcript` keys, None when absent. */
  datatype LlmRequest = LlmRequest(responseId: Option<int>, transcript: Option<seq<Turn>>)

  /** The loop's two variables. */
  datatype LoopState = LoopState(responseId: int, transcript: seq<Turn>)

  const InitialLoop := LoopState(0, [])

  /** A message without `response_id` is skipped; otherwise it sets the id and, when present, the transcript. */
  function OnRequest(st: LoopState, req: LlmRequest): (r: LoopState)
    ensures req.responseId.None? ==> r == st
    ensures req.responseId.Some? ==> r.responseId == req.responseId.value
    ensures SetsTranscript(req) ==> r.transcript == req.transcript.value
    ensures !SetsTranscript(req) ==> r.transcript == st.transcript
  {
    if req.responseId.None? then st
    else LoopState(req.responseId.value, if req.transcript.Some? then req.transcript.value else st.transcript)
  }

  /**
   * The loop's variables after the messages `reqs`, in arrival order. Each variable keeps
   * its initial value or takes the value carried by one of the messages.
   */
  function Consume(st: LoopState, reqs: seq<LlmRequest>): (r: LoopState)
    ensures r.responseId == st.responseId
      || exists j :: 0 <= j < |reqs| && reqs[j].responseId == Some(r.responseId)
    ensures r.transcript == st.transcript
      || exists j :: 0 <= j < |reqs| && SetsTranscript(reqs[j]) && r.transcript == reqs[j].transcript.value
  {
    if reqs == [] then st else OnRequest(Consume(st, reqs[..|reqs| - 1]), reqs[|reqs| - 1])
  }

  /** Messages without `response_id` change neither variable. */
  lemma {:induction false} ConsumeSkipsUnkeyed(st: LoopState, reqs: seq<LlmRequest>)
    requires forall j :: 0 <= j < |reqs| ==> reqs[j].responseId.None?
    ensures Consume(st, reqs) == st
  {
    if reqs != [] {
      ConsumeSkipsUnkeyed(st, reqs[..|reqs| - 1]);
    }
  }

  /** The response id is that of the last message that carries one. */
  lemma {:induction false} ConsumeLastResponseId(st: LoopState, reqs: seq<LlmRequest>, i: nat)
    requires i < |reqs| && reqs[i].responseId.Some?
    requires forall j :: i < j < |reqs| ==> reqs[j].responseId.None?
    ensures Consume(st, reqs).responseId == reqs[i].responseId.value
  {
    if i < |reqs| - 1 {
      ConsumeLastResponseId(st, reqs[..|reqs| - 1], i);
    }
  }

  /** A message carrying a transcript is kept only when it also carries `response_id`. */
  predicate SetsTranscript(req: LlmRequest)
  {
    req.responseId.Some? && req.transcript.Some?
  }

  /** The transcript is that of the last message carrying both keys. */
  lemma {:induction false} ConsumeLastTranscript(st: LoopState, reqs: seq<LlmRequest>, i: nat)
    requires i < |reqs| && SetsTranscript(reqs[i])
    requires forall j :: i < j < |reqs| ==> !SetsTranscript(reqs[j])
    ensures Consume(st, reqs).transcript == reqs[i].transcript.value
  {
    if i < |reqs| - 1 {
      ConsumeLastTranscript(st, reqs[..|reqs| - 1], i);
    }
  }

  /** Without a message carrying both keys the transcript stays as it was. */
  lemma {:induction false} ConsumeKeepsTranscript(st: LoopState, reqs: seq<LlmRequest>)
    requires forall j :: 0 <= j < |reqs| ==> !SetsTranscript(reqs[j])
    ensures Consume(st, reqs).transcript == st.transcript
  {
    if reqs != [] {
      ConsumeKeepsTranscript(st, reqs[..|reqs| - 1]);
    }
  }

  /**
   * Every frame of the socket decoded. None is a frame the loop raises on: one that is not
   * valid JSON, or valid JSON that is not an object and that the key test or the key
   * lookup fails on (`42`, `null`, a string containing `response_id`). A non-object the
   * key test passes over (`[1]`, `"x"`) is skipped like an object without the key, so it
   * is `LlmRequest(None, None)`.
   */
  predicate AllDecoded(frames: seq<Option<LlmRequest>>)
  {
    forall j :: 0 <= j < |frames| ==> frames[j].Some?
  }

  function Decoded(frames: seq<Option<LlmRequest>>): (r: seq<LlmRequest>)
    requires AllDecoded(frames)
    ensures |r| == |frames|
  {
    if frames == [] then [] else Decoded(frames[..|frames| - 1]) + [frames[|frames| - 1].value]
  }

  /** How the socket session ended once the frames were read. */
  datatype SocketEnd = Disconnected | Failed

  /**
   * The entry stored when the socket disconnects: the newline-joined "role: content" text
   * of the last transcript, that transcript itself, and the session's two timestamps.
   */
  function DisconnectSummary(st: LoopState, startTs: Timestamp, endTs: Timestamp): (r: CallSummary)
    ensures r.transcript == SummaryText(st.transcript) && r.transcriptObject == st.transcript
    ensures r.startTimestamp == startTs && r.endTimestamp == endTs
    ensures r.transcript == "" <==> st.transcript == []
  {
    CallSummary(SummaryText(st.transcript), st.transcript, startTs, endTs)
  }

  /**
   * The stored text reads back, split on newlines, as one "role: content" line per turn
   * of the stored transcript object, in order (when no role or content holds a newline).
   */
  lemma DisconnectSummaryLines(st: LoopState, startTs: Timestamp, endTs: Timestamp)
    requires st.transcript != []
    requires forall i :: 0 <= i < |st.transcript| ==>
      NoNewline(st.transcript[i].role) && NoNewline(st.transcript[i].content)
    ensures var r := DisconnectSummary(st, startTs, endTs);
      && |SplitLines(r.transcript)| == |r.transcriptObject|
      && forall i :: 0 <= i < |r.transcriptObject| ==> SplitLines(r.transcript)[i] == TurnLine(r.transcriptObject[i])
  {
    SummaryLines(st.transcript);
  }

  /**
   * The loop of one response stream: it sends the drafted events in order and, after each
   * send, gives up once the request's id is below the latest id the socket has seen
   * (`latestSeen[j]` is that value as observed right after the j-th send).
   */
  method StreamResponse<E>(requestId: int, drafted: seq<E>, latestSeen: seq<int>) returns (sent: seq<E>)
    requires |latestSeen| == |drafted|
    ensures |sent| <= |drafted| && sent == drafted[..|sent|]
    ensures forall j :: 0 <= j < |sent| - 1 ==> latestSeen[j] <= requestId
    ensures |sent| < |drafted| ==> 0 < |sent| && requestId < latestSeen[|sent| - 1]
  {
    sent := [];
    var j := 0;
    while j < |drafted|
      invariant 0 <= j <= |drafted| && sent == drafted[..j]
      invariant forall k :: 0 <= k < j ==> latestSeen[k] <= requestId
    {
      sent := sent + [drafted[j]];
      if requestId < latestSeen[j] {
        return;
      }
      j := j + 1;
    }
  }

  // ---------------------------------------------------------------- the store

  class CallSummaryStore {
    /** Call id to summary. */
    var summaries: map<string, CallSummary>

    constructor ()
      ensures summaries == map[]
    {
      summaries := map[];
    }

    /**
     * The webhook, as the code runs. A body that does not decode is a 500; a bad signature
     * a 400. A `call_ended` event stores (or overwrites) the entry for the call's id with
     * the four copied fields, or is a 500 when the call lacks one of the keys; any other
     * event is ignored. The closing 204 response raises when it is built, so every signed,
     * decodable body ends in a 500, after the store when there was one.
     */
    method HandleWebhook(body: Option<WebhookBody>, signatureValid: bool) returns (reply: WebhookReply)
      modifies this
      ensures WebhookOutcome(reply, summaries) == WebhookAsWritten(old(summaries), body, signatureValid)
      ensures WebhookStatus(reply) == 400 <==> body.Some? && !signatureValid
      ensures body.None? ==> reply == WebhookFailed && summaries == old(summaries)
      ensures body.Some? && !signatureValid ==> reply == InvalidSignature && summaries == old(summaries)
      ensures body.Some? && signatureValid && body.value.event != Some(CallEndedEvent) ==>
        reply == WebhookFailed && summaries == old(summaries)
      ensures body.Some? && signatureValid && body.value.event == Some(CallEndedEvent) ==>
        var call := body.value.call;
        if call.Some? && IsComplete(call.value) then
          reply == WebhookFailed && summaries == old(summaries)[call.value.callId.value := CopiedSummary(call.value)]
        else
          reply == WebhookFailed && summaries == old(summaries)
    {
      if body.None? {
        return WebhookFailed;
      }
      if !signatureValid {
        return InvalidSignature;
      }
      var event, call := body.value.event, body.value.call;
      if event == Some(CallEndedEvent) {
        if call.None? || !IsComplete(call.value) {
          return WebhookFailed;
        }
        summaries := summaries[call.value.callId.value := CopiedSummary(call.value)];
      }
      // Building the 204 response raises; the catch-all answers 500.
      reply := WebhookFailed;
    }

    /** The summary endpoint: the stored entry for a known id, a 404 otherwise. */
    method GetCallSummary(callId: string) returns (r: SummaryReply)
      ensures callId in summaries ==> r == Found(summaries[callId])
      ensures callId !in summaries ==> r == NotFound(404, SummaryNotFound)
    {
      if callId in summaries {
        return Found(summaries[callId]);
      }
      return NotFound(404, SummaryNotFound);
    }

    /**
     * One LLM socket session for `callId`: reads the frames in order, keeping the latest
     * `response_id` and transcript; a frame that does not decode ends the session with
     * nothing stored. When the socket then disconnects, the entry for `callId` becomes the
     * summary of the last transcript; any other failure stores nothing.
     */
    method HandleLlmSocket(callId: string, frames: seq<Option<LlmRequest>>, ending: SocketEnd,
                           startTs: Timestamp, endTs: Timestamp)
      modifies this
      ensures AllDecoded(frames) && ending == Disconnected ==>
        summaries == old(summaries)[callId := DisconnectSummary(Consume(InitialLoop, Decoded(frames)), startTs, endTs)]
      ensures !(AllDecoded(frames) && ending == Disconnected) ==> summaries == old(summaries)
    {
      var responseId := 0;
      var transcript: seq<Turn> := [];
      var i := 0;
      while i < |frames|
        invariant 0 <= i <= |frames| && AllDecoded(frames[..i])
        invariant LoopState(responseId, transcript) == Consume(InitialLoop, Decoded(frames[..i]))
        invariant summaries == old(summaries)
      {
        if frames[i].None? {
          return;
        }
        var req := frames[i].value;
        ghost var before := LoopState(responseId, transcript);
        if req.responseId.Some? {
          responseId := req.responseId.value;
          if req.transcript.Some? {
            transcript := req.transcript.value;
          }
        }
        assert LoopState(responseId, transcript) == OnRequest(before, req);
        assert frames[..i + 1][..i] == frames[..i];
        assert Decoded(frames[..i + 1]) == Decoded(frames[..i]) + [req];
        i := i + 1;
      }
      assert frames[..i] == frames;
      if ending == Disconnected {
        summaries := summaries[callId := CallSummary(SummaryText(transcript), transcript, startTs, endTs)];
      }
    }
  }
}
