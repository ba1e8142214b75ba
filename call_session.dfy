/**
 * The call session controller of the web page: whether a call is live, the id of the
 * current call, and the transcript the voice transport streams in while the call lasts.
 *
 * The voice transport, the HTTP request that registers a call, and the success of
 * starting the transport are outside the model: their outcomes are parameters, and the
 * commands the controller issues to them are recorded, in order, in a trace of effects.
 */
module CallSession {
  import opened Wrappers

  /** The agent the page is configured for. */
  const AgentId := "agent_8ffe11ae048b9c67b50cedb45d"

  /** The endpoint that registers a call (a POST without a body). */
  const RegisterUrl := "http://localhost:8080/register-call-on-your-server"

  /** The transport's speaker label for the agent. */
  const AssistantLabel := "assistant"

  datatype Role = Agent | User

  /** One stored turn of the transcript. */
  datatype Utterance = Utterance(role: Role, content: string)

  /** A turn as the transport reports it, with the transport's own speaker label. */
  datatype TransportUtterance = TransportUtterance(role: string, content: string)

  /** Maps the transport's speaker label onto the two stored roles; the text is kept as is. */
  function Normalize(u: TransportUtterance): (r: Utterance)
    ensures r.content == u.content
    ensures r.role == Agent <==> u.role == AssistantLabel
    ensures r.role == User <==> u.role != AssistantLabel
  {
    Utterance(if u.role == AssistantLabel then Agent else User, u.content)
  }

  /** Normalizes a sequence of turns, keeping their order. */
  function NormalizeAll(us: seq<TransportUtterance>): (r: seq<Utterance>)
    ensures |r| == |us|
  {
    if us == [] then [] else [Normalize(us[0])] + NormalizeAll(us[1..])
  }

  /** The i-th stored turn is the normalized i-th delivered turn. */
  lemma {:induction false} NormalizeAllAt(us: seq<TransportUtterance>, i: nat)
    requires i < |us|
    ensures NormalizeAll(us)[i] == Normalize(us[i])
  {
    if i > 0 {
      NormalizeAllAt(us[1..], i - 1);
    }
  }

  /** The events the transport delivers to the page. */
  datatype TransportEvent =
    | ConversationStarted
    | ConversationEnded(code: int, reason: string)
    | TransportError(message: string)
    | TranscriptUpdated(utterance: TransportUtterance)

  /** The state the controller exposes. */
  datatype Session = Session(isCalling: bool, currentCallId: Option<string>, transcript: seq<Utterance>)

  /**
   * What one transport event does to the session, with the handlers subscribed once.
   * No event touches the call id or raises the call flag, and the transcript is either
   * emptied or grows by at most one turn at its end.
   */
  function OnEvent(s: Session, e: TransportEvent): (r: Session)
    ensures r.currentCallId == s.currentCallId
    ensures r.isCalling ==> s.isCalling
    ensures r.transcript == [] || (s.transcript <= r.transcript && |r.transcript| <= |s.transcript| + 1)
  {
    match e
    case ConversationStarted => s.(transcript := [])
    case ConversationEnded(_, _) => s.(isCalling := false)
    case TransportError(_) => s.(isCalling := false)
    case TranscriptUpdated(u) => s.(transcript := s.transcript + [Normalize(u)])
  }

  /**
   * The session after the transport has delivered `events`, in delivery order. No run of
   * events sets the call flag or changes the call id: only the toggle does.
   */
  function Replay(s: Session, events: seq<TransportEvent>): (r: Session)
    ensures r.isCalling ==> s.isCalling
    ensures r.currentCallId == s.currentCallId
    decreases |events|
  {
    if events == [] then s else Replay(OnEvent(s, events[0]), events[1..])
  }

  /** One `transcriptUpdated` event per turn, in the given order. */
  function Updates(us: seq<TransportUtterance>): (r: seq<TransportEvent>)
    ensures |r| == |us|
  {
    if us == [] then [] else [TranscriptUpdated(us[0])] + Updates(us[1..])
  }

  /** The turns carried by the `transcriptUpdated` events among `events`, in order. */
  function UtterancesOf(events: seq<TransportEvent>): seq<TransportUtterance>
  {
    if events == [] then []
    else (if events[0].TranscriptUpdated? then [events[0].utterance] else []) + UtterancesOf(events[1..])
  }

  lemma {:induction false} NormalizeAllAppend(a: seq<TransportUtterance>, b: seq<TransportUtterance>)
    ensures NormalizeAll(a + b) == NormalizeAll(a) + NormalizeAll(b)
  {
    if a == [] {
      assert a + b == b;
    } else {
      assert (a + b)[1..] == a[1..] + b;
      NormalizeAllAppend(a[1..], b);
    }
  }

  /**
   * While no new conversation starts, the transcript only grows: it becomes the old
   * transcript followed by every delivered turn, normalized, in delivery order
   * (no loss, no reordering, no deduplication).
   */
  lemma {:induction false} AppendOnlyWithoutStart(s: Session, events: seq<TransportEvent>)
    requires forall i :: 0 <= i < |events| ==> !events[i].ConversationStarted?
    ensures Replay(s, events).transcript == s.transcript + NormalizeAll(UtterancesOf(events))
    decreases |events|
  {
    if events == [] {
      assert NormalizeAll([]) == [];
    } else {
      var s' := OnEvent(s, events[0]);
      var rest := UtterancesOf(events[1..]);
      AppendOnlyWithoutStart(s', events[1..]);
      assert Replay(s, events) == Replay(s', events[1..]);
      if events[0].TranscriptUpdated? {
        var u := events[0].utterance;
        assert UtterancesOf(events) == [u] + rest;
        NormalizeAllAppend([u], rest);
        assert NormalizeAll([u]) == [Normalize(u)];
        assert s'.transcript == s.transcript + [Normalize(u)];
      } else {
        assert UtterancesOf(events) == rest;
        assert s'.transcript == s.transcript;
      }
    }
  }

  /** Turn events alone leave the call flag and the call id as they were and append every turn. */
  lemma {:induction false} ReplayUpdates(s: Session, us: seq<TransportUtterance>)
    ensures Replay(s, Updates(us)) == s.(transcript := s.transcript + NormalizeAll(us))
    decreases |us|
  {
    if us == [] {
      assert NormalizeAll([]) == [];
    } else {
      var s' := s.(transcript := s.transcript + [Normalize(us[0])]);
      assert Updates(us) == [TranscriptUpdated(us[0])] + Updates(us[1..]);
      assert Replay(s, Updates(us)) == Replay(s', Updates(us[1..]));
      ReplayUpdates(s', us[1..]);
      assert NormalizeAll(us) == [Normalize(us[0])] + NormalizeAll(us[1..]);
    }
  }

  /**
   * `conversationStarted` followed by n turns yields exactly those n turns, normalized,
   * in delivery order, whatever the transcript held before.
   */
  lemma StartThenUpdates(s: Session, us: seq<TransportUtterance>)
    ensures Replay(s, [ConversationStarted] + Updates(us)) == s.(transcript := NormalizeAll(us))
  {
    assert ([ConversationStarted] + Updates(us))[1..] == Updates(us);
    ReplayUpdates(s.(transcript := []), us);
  }

  /** After an end or error event, and any later turn events, no call is live. */
  lemma {:induction false} EndedStaysIdle(s: Session, e: TransportEvent, later: seq<TransportEvent>)
    requires e.ConversationEnded? || e.TransportError?
    ensures !Replay(s, [e] + later).isCalling
  {
    assert ([e] + later)[1..] == later;
    assert Replay(s, [e] + later) == Replay(OnEvent(s, e), later);
  }

  /**
   * Delivery as the page actually runs it. The effect that subscribes the four handlers
   * runs again whenever `currentCallId` changes and never unsubscribes, so every event
   * reaches `listeners` copies of each handler.
   */
  function DeliverToListeners(s: Session, e: TransportEvent, listeners: nat): Session
    decreases listeners
  {
    if listeners == 0 then s else DeliverToListeners(OnEvent(s, e), e, listeners - 1)
  }

  /** With n subscriptions, one delivered turn is stored n times. */
  lemma {:induction false} TurnStoredPerListener(s: Session, u: TransportUtterance, listeners: nat)
    ensures DeliverToListeners(s, TranscriptUpdated(u), listeners).transcript
      == s.transcript + seq(listeners, _ => Normalize(u))
    decreases listeners
  {
    if listeners > 0 {
      var s' := OnEvent(s, TranscriptUpdated(u));
      TurnStoredPerListener(s', u, listeners - 1);
      assert [Normalize(u)] + seq(listeners - 1, _ => Normalize(u)) == seq(listeners, _ => Normalize(u));
    }
  }

  /**
   * Once the first call id is recorded the handlers are subscribed twice (on mount and on
   * the id's change), and a single `transcriptUpdated` event stores its turn twice, where
   * one subscription (OnEvent) stores it once.
   */
  lemma SecondSubscriptionDuplicatesTurns(s: Session, u: TransportUtterance)
    ensures DeliverToListeners(s, TranscriptUpdated(u), 2).transcript == s.transcript + [Normalize(u), Normalize(u)]
    ensures OnEvent(s, TranscriptUpdated(u)).transcript == s.transcript + [Normalize(u)]
  {
    TurnStoredPerListener(s, u, 2);
  }

  /** The HTTP outcome of the registration request. */
  datatype FetchOutcome =
    | NetworkFailure
    /**
     * `body` is None when the page cannot obtain a registration from it: the body is JSON
     * `null` or otherwise not a registration object. The page reads the body only for an
     * ok status, so for any other status `body` plays no part.
     */
    | Response(status: int, body: Option<RegisterCallResponse>)

  datatype RegisterCallResponse = RegisterCallResponse(callId: Option<string>, sampleRate: int)

  /** `response.ok` of the Fetch standard: a status in the range 200 to 299. */
  predicate IsOk(status: int)
  {
    200 <= status <= 299
  }

  /**
   * The registration helper: the decoded body of an ok response, and nothing (an exception
   * in the page) for a failed request, a non-ok status, or a body that does not decode.
   */
  function RegisterCall(fetched: FetchOutcome): (r: Option<RegisterCallResponse>)
    ensures r.Some? <==> fetched.Response? && IsOk(fetched.status) && fetched.body.Some?
    ensures r.Some? ==> r.value == fetched.body.value
  {
    match fetched
    case NetworkFailure => None
    case Response(status, body) => if IsOk(status) then body else None
  }

  /** A registration the page can use: present, with a call id that is not the empty string. */
  predicate HasCallId(r: Option<RegisterCallResponse>)
  {
    r.Some? && r.value.callId.Some? && r.value.callId.value != ""
  }

  /** The requests and commands the controller issues, in order. */
  datatype Effect =
    | RegisterRequest(url: string)
    | StartConversation(callId: string, sampleRate: int, enableUpdate: bool)
    | StopConversation

  class CallController {
    var isCalling: bool
    var currentCallId: Option<string>
    var transcript: seq<Utterance>
    /** Every registration request and transport command issued so far. */
    var effects: seq<Effect>

    function View(): Session
      reads this
    {
      Session(isCalling, currentCallId, transcript)
    }

    constructor ()
      ensures View() == Session(false, None, []) && effects == []
    {
      isCalling, currentCallId, transcript, effects := false, None, [], [];
    }

    /** `conversationStarted`: the transcript is emptied; nothing else changes. */
    method OnConversationStarted()
      modifies this
      ensures transcript == []
      ensures isCalling == old(isCalling) && currentCallId == old(currentCallId) && effects == old(effects)
      ensures View() == OnEvent(old(View()), ConversationStarted)
    {
      transcript := [];
    }

    /** `conversationEnded`: no call is live any more; the transcript is kept. */
    method OnConversationEnded(code: int, reason: string)
      modifies this
      ensures !isCalling
      ensures transcript == old(transcript) && currentCallId == old(currentCallId) && effects == old(effects)
      ensures View() == OnEvent(old(View()), ConversationEnded(code, reason))
    {
      isCalling := false;
    }

    /** `error`: no call is live any more; the error is not raised further. */
    method OnError(message: string)
      modifies this
      ensures !isCalling
      ensures transcript == old(transcript) && currentCallId == old(currentCallId) && effects == old(effects)
      ensures View() == OnEvent(old(View()), TransportError(message))
    {
      isCalling := false;
    }

    /** `transcriptUpdated`: exactly one normalized turn is appended at the end. */
    method OnTranscriptUpdated(u: TransportUtterance)
      modifies this
      ensures transcript == old(transcript) + [Normalize(u)]
      ensures isCalling == old(isCalling) && currentCallId == old(currentCallId) && effects == old(effects)
      ensures View() == OnEvent(old(View()), TranscriptUpdated(u))
    {
      transcript := transcript + [Normalize(u)];
    }

    /**
     * The start/stop button. While a call is live it stops the transport and clears the flag
     * at once, without registering. Otherwise it registers (`fetched` is the HTTP outcome),
     * gives up when no usable call id came back, records the id, starts the transport
     * (`startOk` says whether that succeeded) and sets the flag only on success.
     */
    method ToggleConversation(fetched: FetchOutcome, startOk: bool)
      modifies this
      ensures transcript == old(transcript)
      ensures old(isCalling) ==>
        !isCalling && currentCallId == old(currentCallId) && effects == old(effects) + [StopConversation]
      ensures !old(isCalling) && !HasCallId(RegisterCall(fetched)) ==>
        !isCalling && currentCallId == old(currentCallId) && effects == old(effects) + [RegisterRequest(RegisterUrl)]
      ensures !old(isCalling) && HasCallId(RegisterCall(fetched)) ==>
        var reg := RegisterCall(fetched).value;
        && currentCallId == reg.callId
        && effects == old(effects) + [RegisterRequest(RegisterUrl), StartConversation(reg.callId.value, reg.sampleRate, true)]
        && isCalling == startOk
    {
      if isCalling {
        effects := effects + [StopConversation];
        isCalling := false;
      } else {
        effects := effects + [RegisterRequest(RegisterUrl)];
        var reg := RegisterCall(fetched);
        if !HasCallId(reg) {
          isCalling := false;
          return;
        }
        var callId := reg.value.callId.value;
        currentCallId := Some(callId);
        effects := effects + [StartConversation(callId, reg.value.sampleRate, true)];
        isCalling := startOk;
      }
    }
  }

  /** A full call seen by a client of the controller: register, start, two turns, end. */
  method ScenarioTwoTurns()
  {
    var c := new CallController();
    c.ToggleConversation(Response(200, Some(RegisterCallResponse(Some("abc"), 16000))), true);
    assert c.isCalling && c.currentCallId == Some("abc");
    c.OnConversationStarted();
    c.OnTranscriptUpdated(TransportUtterance("assistant", "Hello"));
    c.OnTranscriptUpdated(TransportUtterance("caller", "Hi"));
    assert c.transcript == [Utterance(Agent, "Hello"), Utterance(User, "Hi")];
    c.ToggleConversation(NetworkFailure, false);
    assert !c.isCalling && c.effects[|c.effects| - 1] == StopConversation;
  }
}
