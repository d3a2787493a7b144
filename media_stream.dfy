/**
 * One phone media-stream connection of the bridge (`app.ws('/media-stream')`
 * in vendedor-ia-mejorado.js): the per-connection variables, the handlers of
 * the speech model's socket and of the phone provider's socket, and the
 * close handler. Each handler returns the actions it asks of the outside
 * world instead of performing them.
 */
module MediaStream {
  import opened Wrappers
  import opened Text
  import opened Detection
  import opened CallPrompt
  import opened CallSessions
  import opened Dispatch
  import Extraction

  /** A message of the phone provider's socket after `JSON.parse`. */
  datatype PhoneMessage =
    | Start(callSid: string, streamSid: string)
    | Media(payload: string)
    | Stop
    | OtherPhoneMessage(event: string)

  /** The `readyState` values of a WebSocket. */
  const Connecting: nat := 0
  const Open: nat := 1
  const Closing: nat := 2
  const Closed: nat := 3

  /** `close()` moves a socket that is connecting or open to closing and leaves the others. */
  function AfterClose(state: nat): (r: nat)
    ensures state <= Open ==> r == Closing
    ensures state > Open ==> r == state
  {
    if state <= Open then Closing else state
  }

  /** The number of `Save` actions in a list. */
  function Saves(actions: seq<Action>): (n: nat)
    ensures n <= |actions|
    decreases |actions|
  {
    if actions == [] then 0 else (if actions[0].Save? then 1 else 0) + Saves(actions[1..])
  }

  lemma {:induction false} SavesAppend(a: seq<Action>, b: seq<Action>)
    ensures Saves(a + b) == Saves(a) + Saves(b)
    decreases |a|
  {
    if a == [] {
      assert a + b == b;
    } else {
      assert (a + b)[1..] == a[1..] + b;
      SavesAppend(a[1..], b);
    }
  }

  class StreamHandler {
    const clientId: string
    const clientConfig: CallConfig
    const registry: Registry
    var callSid: Option<string>
    var streamSid: Option<string>
    var session: CallSession?
    var upstreamState: nat

    ghost predicate Valid()
      reads this, session
    {
      && upstreamState <= Closed
      && (session != null ==>
            && session.Valid()
            && callSid == Some(session.callSid)
            && streamSid == Some(session.streamSid))
    }

    /**
     * A new connection: the client id from the query (`'unknown'` when
     * missing or empty), the profile already loaded, the speech model's
     * socket still connecting and no call yet.
     */
    constructor(clientIdParam: Option<string>, clientConfig: CallConfig, registry: Registry)
      ensures Valid()
      ensures clientId == OrDefault(clientIdParam, "unknown")
      ensures this.clientConfig == clientConfig && this.registry == registry
      ensures callSid == None && streamSid == None && session == null
      ensures upstreamState == Connecting
    {
      clientId := OrDefault(clientIdParam, "unknown");
      this.clientConfig := clientConfig;
      this.registry := registry;
      callSid := None;
      streamSid := None;
      session := null;
      upstreamState := Connecting;
    }

    /** The speech model's socket opened: configure it with the prompt built from the profile. */
    method OnUpstreamOpen() returns (actions: seq<Action>)
      requires Valid()
      modifies this`upstreamState
      ensures Valid()
      ensures upstreamState == Open
      ensures actions == [ConfigureSession(BuildSystemPrompt(clientConfig))]
    {
      upstreamState := Open;
      actions := [ConfigureSession(BuildSystemPrompt(clientConfig))];
    }

    /**
     * One event of the speech model's socket. Audio is passed on to the
     * phone whether or not a call has started; everything else needs a
     * session and acts on it as `AiStep` says.
     */
    method OnAiMessage(ev: AiEvent, now: int) returns (actions: seq<Action>)
      requires Valid()
      modifies session
      ensures Valid()
      ensures session == null ==> actions == AiStepWithoutSession(ev, streamSid)
      ensures session != null ==>
        (session.State(), actions) == AiStep(old(session.State()), ev, callSid, streamSid, now)
    {
      match ev
      case AudioDelta(delta) =>
        if delta != "" {
          actions := [PlayAudio(streamSid, delta)];
        } else {
          actions := [];
        }
      case TranscriptDelta(text) =>
        actions := OnAgentDelta(text);
      case TranscriptDone(fullText) =>
        actions := OnAgentDone(fullText, now);
      case InputTranscriptionCompleted(text) =>
        actions := OnClientLine(text, now);
      case OtherAiEvent(_) =>
        actions := [];
    }

    /** A piece of the agent's live transcript: the tags it carries act on the session. */
    method OnAgentDelta(text: string) returns (actions: seq<Action>)
      requires Valid()
      modifies session
      ensures Valid()
      ensures session == null ==> actions == []
      ensures session != null ==>
        (session.State(), actions) == AiStep(old(session.State()), TranscriptDelta(text), callSid, streamSid, 0)
    {
      actions := [];
      if session != null {
        if Contains(text, VoicemailTag) {
          session.voicemailDetected := true;
          actions := [Hangup(callSid, AgentHangupDelay)];
        } else if Contains(text, DtmfOpen) {
          var m := DtmfCommand(text);
          if m.Some? {
            DtmfCommandSound(text);
            actions := [SendDtmf(callSid, m.value)];
            session.dtmfSent := session.dtmfSent + [m.value];
            LogDigitsKeepsValid(old(session.State()), m.value);
          }
        } else if Contains(text, HumanTag) {
          session.humanDetected := true;
        }
      }
    }

    /** The agent's finished line: logged and mined for contact data. */
    method OnAgentDone(fullText: string, now: int) returns (actions: seq<Action>)
      requires Valid()
      modifies session
      ensures Valid()
      ensures session == null ==> actions == []
      ensures session != null ==>
        (session.State(), actions) == AiStep(old(session.State()), TranscriptDone(fullText), callSid, streamSid, now)
    {
      actions := [];
      if session != null && fullText != "" {
        session.AddTranscript(Agent, fullText, now);
        session.ExtractData(fullText);
      }
    }

    /** The client's finished line: logged, then checked for a machine, a person and a menu. */
    method OnClientLine(text: string, now: int) returns (actions: seq<Action>)
      requires Valid()
      modifies session
      ensures Valid()
      ensures session == null ==> actions == []
      ensures session != null ==>
        (session.State(), actions) == AiStep(old(session.State()), InputTranscriptionCompleted(text), callSid, streamSid, now)
    {
      actions := [];
      if session != null && text != "" {
        ghost var st := session.State();
        ghost var logged := st.(transcript := st.transcript + [Entry(Client, text, now)]);
        session.AddTranscript(Client, text, now);
        assert session.State() == logged;
        var voicemail := session.DetectVoicemail(text);
        if voicemail {
          actions := [Hangup(callSid, ClientHangupDelay)];
          return;
        }
        var _ := session.DetectHuman(text);
        ghost var greeted := logged.(humanDetected := logged.humanDetected || IsHumanGreeting(text));
        assert session.State() == greeted;
        var ivr := session.DetectIvrOption(text);
        if ivr.Some? {
          actions := [ScheduleDtmf(ivr.value, IvrDtmfDelay)];
        }
        session.ExtractData(text);
        assert session.State() == greeted.(capturedData := Extraction.Extracted(greeted.capturedData, text));
      }
    }

    /** The menu-choice timer fires: the chosen digits are sent, then logged. */
    method FireScheduledDtmf(digits: string) returns (actions: seq<Action>)
      requires Valid()
      requires session != null
      requires digits != [] && AllDigits(digits)
      modifies session
      ensures Valid()
      ensures (session.State(), actions) == DtmfFired(old(session.State()), callSid, digits)
    {
      actions := [SendDtmf(callSid, digits)];
      session.dtmfSent := session.dtmfSent + [digits];
      LogDigitsKeepsValid(old(session.State()), digits);
    }

    /**
     * One message of the phone provider's socket. `start` opens the call's
     * session and registers it under the call id; `media` is forwarded only
     * while the speech model's socket is open; `stop` saves the session,
     * removes it from the registry and closes the speech model's socket.
     */
    method OnPhoneMessage(msg: PhoneMessage, now: int) returns (actions: seq<Action>)
      requires Valid()
      modifies this, registry
      ensures Valid()
      ensures msg.Start? ==>
        && callSid == Some(msg.callSid) && streamSid == Some(msg.streamSid)
        && session != null && fresh(session)
        && session.State() == InitialState && session.startTime == now
        && session.callSid == msg.callSid && session.streamSid == msg.streamSid
        && session.clientId == clientId && session.config == clientConfig
        && registry.sessions == old(registry.sessions)[msg.callSid := session]
        && upstreamState == old(upstreamState)
        && actions == []
      ensures msg.Media? ==>
        && actions == (if old(upstreamState) == Open then [AppendAudio(msg.payload)] else [])
        && unchanged(this) && unchanged(registry)
      ensures msg.Stop? ==>
        && actions == (if old(session) != null then [Save(old(session).Record(now))] else []) + [CloseUpstream]
        && registry.sessions == (if old(session) != null then old(registry.sessions) - {old(session).callSid}
                                 else old(registry.sessions))
        && upstreamState == AfterClose(old(upstreamState))
        && session == old(session) && callSid == old(callSid) && streamSid == old(streamSid)
      ensures msg.OtherPhoneMessage? ==> actions == [] && unchanged(this) && unchanged(registry)
    {
      match msg
      case Start(c, s) =>
        callSid := Some(c);
        streamSid := Some(s);
        session := new CallSession(c, s, clientId, clientConfig, now);
        registry.Set(c, session);
        actions := [];
      case Media(payload) =>
        if upstreamState == Open {
          actions := [AppendAudio(payload)];
        } else {
          actions := [];
        }
      case Stop =>
        actions := [];
        if session != null {
          actions := [Save(session.Record(now))];
          registry.Delete(session.callSid);
        }
        actions := actions + [CloseUpstream];
        upstreamState := AfterClose(upstreamState);
      case OtherPhoneMessage(_) =>
        actions := [];
    }

    /**
     * The phone provider's socket closed: the session, if any, is saved
     * (again, when `stop` already saved it) and the speech model's socket is
     * closed.
     */
    method OnClose(now: int) returns (actions: seq<Action>)
      requires Valid()
      modifies this`upstreamState
      ensures Valid()
      ensures actions == (if session != null then [Save(session.Record(now))] else []) + [CloseUpstream]
      ensures upstreamState == AfterClose(old(upstreamState))
    {
      actions := [];
      if session != null {
        actions := [Save(session.Record(now))];
      }
      actions := actions + [CloseUpstream];
      upstreamState := AfterClose(upstreamState);
    }
  }

  /**
   * A call that ends normally is saved twice: once by `stop`, once more by
   * the close that follows it.
   */
  method StopThenClose(h: StreamHandler, stopTime: int, closeTime: int) returns (actions: seq<Action>)
    requires h.Valid()
    requires h.session != null
    modifies h, h.registry
    ensures Saves(actions) == 2
    ensures h.session == old(h.session) && h.session.callSid !in h.registry.sessions
  {
    var first := h.OnPhoneMessage(Stop, stopTime);
    var second := h.OnClose(closeTime);
    actions := first + second;
    SavesAppend(first, second);
    SavesAppend([Save(h.session.Record(stopTime))], [CloseUpstream]);
    SavesAppend([Save(h.session.Record(closeTime))], [CloseUpstream]);
  }
}
