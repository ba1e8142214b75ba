/**
 * The page's registration request answered by the server's register endpoint: what the
 * page receives for each way the upstream registration can come back.
 */
module EndToEnd {
  import opened Wrappers
  import CallSession
  import Server

  /** The HTTP response the page's fetch receives for an endpoint reply. */
  function AsFetched(r: Server.RegisterReply): (f: CallSession.FetchOutcome)
    ensures f.Response? && f.status == Server.RegisterReplyStatus(r)
    ensures f.body.Some? <==> r.DetailJson?
    ensures r.DetailJson? ==>
      f.body == Some(CallSession.RegisterCallResponse(Some(r.detail.callId), r.detail.sampleRate))
  {
    match r
    case DetailJson(d) => CallSession.Response(200, Some(CallSession.RegisterCallResponse(Some(d.callId), d.sampleRate)))
    case NullJson => CallSession.Response(200, None)
    // the JSON error object is never read: the page throws on the non-ok status first
    case RegisterFailed => CallSession.Response(500, None)
  }

  /**
   * The page obtains a usable call id exactly when the platform answered 201 with a
   * non-empty call id; any other upstream status yields a null body, which the page
   * treats as a failed registration. The id and sample rate it obtains are the
   * platform's own.
   */
  lemma PageGetsCallIdOnlyWhenCreated(agentId: Option<string>, platform: Server.RegisterCallRequest -> Server.UpstreamOutcome)
    ensures CallSession.HasCallId(CallSession.RegisterCall(AsFetched(Server.RegisterCallOnYourServer(agentId, platform))))
        <==> agentId.Some? &&
             var u := platform(Server.RegisterCallRequestFor(agentId.value));
             u.UpstreamReturned? && u.statusCode == 201 && u.callDetail.callId != ""
    ensures var got := CallSession.RegisterCall(AsFetched(Server.RegisterCallOnYourServer(agentId, platform)));
      CallSession.HasCallId(got) ==>
        var u := platform(Server.RegisterCallRequestFor(agentId.value));
        got.value.callId == Some(u.callDetail.callId) && got.value.sampleRate == u.callDetail.sampleRate
  {
  }
}
