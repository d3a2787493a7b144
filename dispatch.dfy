/**
 * What the bridge does with one event of the speech model's socket
 * (the `openAiWs` message handler of vendedor-ia-mejorado.js), as a function
 * from the session's state to its new state and the actions asked of the
 * outside world. Timers, the phone provider and the store are actions here.
 */
module Dispatch {
  import opened Wrappers
  import opened Text
  import opened Detection
  import opened Extraction
  import opened CallSessions

  /** An event of the speech model's socket after `JSON.parse`; a missing text field is "". */
  datatype AiEvent =
    | AudioDelta(delta: string)
    | TranscriptDelta(delta: string)
    | TranscriptDone(transcript: string)
    | InputTranscriptionCompleted(transcript: string)
    | OtherAiEvent(eventType: string)

  /** A request to the outside world, in the order the handler makes it. */
  datatype Action =
    | PlayAudio(streamSid: Option<string>, payload: string)
    | AppendAudio(payload: string)
    | ConfigureSession(instructions: string)
    | Hangup(callSid: Option<string>, delayMs: nat)
    | SendDtmf(callSid: Option<string>, digits: string)
    | ScheduleDtmf(digits: string, delayMs: nat)
    | Save(row: SavedCall)
    | CloseUpstream

  /** Delays of the timers the handler starts. */
  const AgentHangupDelay: nat := 500
  const ClientHangupDelay: nat := 1000
  const IvrDtmfDelay: nat := 1000

  /** A piece of the agent's speech: the in-band commands, first match wins. */
  function AgentDelta(st: SessionState, text: string, callSid: Option<string>): (SessionState, seq<Action>) {
    if Contains(text, VoicemailTag) then
      (st.(voicemailDetected := true), [Hangup(callSid, AgentHangupDelay)])
    else if Contains(text, DtmfOpen) then
      match DtmfCommand(text)
      case Some(d) => (st.(dtmfSent := st.dtmfSent + [d]), [SendDtmf(callSid, d)])
      case None => (st, [])
    else if Contains(text, HumanTag) then
      (st.(humanDetected := true), [])
    else
      (st, [])
  }

  /** A finished agent utterance: logged, then searched for contact data. */
  function AgentDone(st: SessionState, text: string, now: int): SessionState {
    var logged := st.(transcript := st.transcript + [Entry(Agent, text, now)]);
    logged.(capturedData := Extracted(logged.capturedData, text))
  }

  /**
   * A finished client utterance: logged; on voicemail a hangup and nothing
   * else; otherwise greeting detection, the menu choice (dialled after a
   * delay) and extraction, in that order.
   */
  function ClientLine(st: SessionState, text: string, callSid: Option<string>, now: int): (SessionState, seq<Action>) {
    var logged := st.(transcript := st.transcript + [Entry(Client, text, now)]);
    if IsVoicemail(text) then
      (logged.(voicemailDetected := true), [Hangup(callSid, ClientHangupDelay)])
    else
      var greeted := logged.(humanDetected := logged.humanDetected || IsHumanGreeting(text));
      var ivr := IvrChoice(text);
      var extracted := greeted.(capturedData := Extracted(greeted.capturedData, text));
      (extracted, if ivr.Some? then [ScheduleDtmf(ivr.value, IvrDtmfDelay)] else [])
  }

  /** The delayed menu choice firing: the digits are sent, then logged. */
  function DtmfFired(st: SessionState, callSid: Option<string>, digits: string): (SessionState, seq<Action>) {
    (st.(dtmfSent := st.dtmfSent + [digits]), [SendDtmf(callSid, digits)])
  }

  /** One event of the speech model's socket, with a live session in state `st`. */
  function AiStep(st: SessionState, ev: AiEvent, callSid: Option<string>, streamSid: Option<string>, now: int): (SessionState, seq<Action>) {
    match ev
    case AudioDelta(d) => (st, if d != "" then [PlayAudio(streamSid, d)] else [])
    case TranscriptDelta(t) => AgentDelta(st, t, callSid)
    case TranscriptDone(t) => if t != "" then (AgentDone(st, t, now), []) else (st, [])
    case InputTranscriptionCompleted(t) => if t != "" then ClientLine(st, t, callSid, now) else (st, [])
    case OtherAiEvent(_) => (st, [])
  }

  /** The same event before any session exists: only audio is passed on. */
  function AiStepWithoutSession(ev: AiEvent, streamSid: Option<string>): seq<Action> {
    if ev.AudioDelta? && ev.delta != "" then [PlayAudio(streamSid, ev.delta)] else []
  }

  // ---------------------------------------------------------------------
  // Properties
  // ---------------------------------------------------------------------

  /** `after` is `before` with the transcript and the DTMF log only extended and the flags only raised. */
  predicate Grows(before: SessionState, after: SessionState) {
    && |before.transcript| <= |after.transcript| && after.transcript[..|before.transcript|] == before.transcript
    && |before.dtmfSent| <= |after.dtmfSent| && after.dtmfSent[..|before.dtmfSent|] == before.dtmfSent
    && (before.voicemailDetected ==> after.voicemailDetected)
    && (before.humanDetected ==> after.humanDetected)
  }

  /**
   * No event of the speech model's socket shortens the transcript or the
   * DTMF log or lowers a flag, and every event keeps the state valid.
   */
  lemma AiStepGrowsAndKeepsValid(st: SessionState, ev: AiEvent, callSid: Option<string>, streamSid: Option<string>, now: int)
    requires ValidState(st)
    ensures Grows(st, AiStep(st, ev, callSid, streamSid, now).0)
    ensures ValidState(AiStep(st, ev, callSid, streamSid, now).0)
  {
    match ev
    case TranscriptDelta(t) =>
      AgentDeltaGrows(st, t, callSid);
    case TranscriptDone(t) =>
      if t != "" {
        AgentDoneGrows(st, t, now);
      }
    case InputTranscriptionCompleted(t) =>
      if t != "" {
        ClientLineGrows(st, t, callSid, now);
      }
    case _ =>
  }

  lemma AgentDeltaGrows(st: SessionState, text: string, callSid: Option<string>)
    requires ValidState(st)
    ensures Grows(st, AgentDelta(st, text, callSid).0) && ValidState(AgentDelta(st, text, callSid).0)
  {
    if !Contains(text, VoicemailTag) && Contains(text, DtmfOpen) && DtmfCommand(text).Some? {
      DtmfCommandSound(text);
      LogDigitsKeepsValid(st, DtmfCommand(text).value);
    }
  }

  lemma AgentDoneGrows(st: SessionState, text: string, now: int)
    requires ValidState(st)
    ensures Grows(st, AgentDone(st, text, now)) && ValidState(AgentDone(st, text, now))
  {
    ExtractedWellFormed(st.capturedData, text);
    var r := AgentDone(st, text, now);
    assert r.transcript[..|st.transcript|] == st.transcript;
  }

  lemma ClientLineGrows(st: SessionState, text: string, callSid: Option<string>, now: int)
    requires ValidState(st)
    ensures Grows(st, ClientLine(st, text, callSid, now).0) && ValidState(ClientLine(st, text, callSid, now).0)
  {
    ExtractedWellFormed(st.capturedData, text);
    var r := ClientLine(st, text, callSid, now).0;
    assert r.transcript[..|st.transcript|] == st.transcript;
  }

  /** Logging a non-empty digit string keeps the state valid and only extends the log. */
  lemma LogDigitsKeepsValid(st: SessionState, d: string)
    requires ValidState(st)
    requires d != [] && AllDigits(d)
    ensures ValidState(st.(dtmfSent := st.dtmfSent + [d]))
    ensures Grows(st, st.(dtmfSent := st.dtmfSent + [d]))
  {
    var after := st.dtmfSent + [d];
    assert after[..|st.dtmfSent|] == st.dtmfSent;
    forall i | 0 <= i < |after|
      ensures after[i] != [] && AllDigits(after[i])
    {
      if i == |st.dtmfSent| {
        assert after[i] == d;
      } else {
        assert after[i] == st.dtmfSent[i];
      }
    }
  }

  /** The delayed menu choice keeps the state valid when it dials a chosen digit string. */
  lemma DtmfFiredKeepsValid(st: SessionState, callSid: Option<string>, text: string)
    requires ValidState(st)
    requires IvrChoice(text).Some?
    ensures ValidState(DtmfFired(st, callSid, IvrChoice(text).value).0)
    ensures Grows(st, DtmfFired(st, callSid, IvrChoice(text).value).0)
  {
    var d := IvrChoice(text).value;
    assert d != [] && AllDigits(d) by {
      IvrChoiceIsInstructionDigits(text);
    }
    LogDigitsKeepsValid(st, d);
  }

  /**
   * The voicemail tag takes precedence: whatever other tag the piece holds,
   * only the flag is raised and a hangup requested.
   */
  lemma VoicemailTagTakesPrecedence(st: SessionState, text: string, callSid: Option<string>)
    requires Contains(text, VoicemailTag)
    ensures AgentDelta(st, text, callSid) == (st.(voicemailDetected := true), [Hangup(callSid, AgentHangupDelay)])
  {
  }

  /**
   * The DTMF log grows, by exactly the tag's digits, exactly when the piece
   * has no voicemail tag and holds a well-formed DTMF tag; otherwise it is
   * unchanged.
   */
  lemma DtmfLogGrowsOnlyOnCommand(st: SessionState, text: string, callSid: Option<string>)
    ensures var r := AgentDelta(st, text, callSid).0;
      |r.dtmfSent| == |st.dtmfSent| + 1 <==> !Contains(text, VoicemailTag) && DtmfCommand(text).Some?
    ensures var r := AgentDelta(st, text, callSid).0;
      !Contains(text, VoicemailTag) && DtmfCommand(text).Some? ==>
        r.dtmfSent == st.dtmfSent + [DtmfCommand(text).value] && AllDigits(DtmfCommand(text).value)
    ensures var r := AgentDelta(st, text, callSid).0;
      !(!Contains(text, VoicemailTag) && DtmfCommand(text).Some?) ==> r.dtmfSent == st.dtmfSent
  {
    var c := DtmfCommand(text);
    if c.Some? {
      assert Contains(text, DtmfOpen) && AllDigits(c.value) by {
        DtmfCommandSound(text);
        assert DtmfOpen + c.value + "]" == DtmfOpen + (c.value + "]");
        ContainsPrefixOf(text, DtmfOpen, c.value + "]");
      }
    }
  }

  /**
   * A client line with a voicemail phrase is logged and ends in a hangup:
   * greeting detection, the menu choice and extraction do not run for it.
   */
  lemma VoicemailLineStopsThere(st: SessionState, text: string, callSid: Option<string>, now: int)
    requires IsVoicemail(text)
    ensures var (r, actions) := ClientLine(st, text, callSid, now);
      && r.transcript == st.transcript + [Entry(Client, text, now)]
      && r.voicemailDetected
      && r.humanDetected == st.humanDetected
      && r.capturedData == st.capturedData
      && r.dtmfSent == st.dtmfSent
      && actions == [Hangup(callSid, ClientHangupDelay)]
  {
  }

  /**
   * Any other client line is logged, then raises the person flag on a
   * greeting, asks for the chosen menu digits (and only those), and
   * captures its contact data.
   */
  lemma OtherLineRunsEveryDetector(st: SessionState, text: string, callSid: Option<string>, now: int)
    requires !IsVoicemail(text)
    ensures var (r, actions) := ClientLine(st, text, callSid, now);
      && r.transcript == st.transcript + [Entry(Client, text, now)]
      && r.voicemailDetected == st.voicemailDetected
      && r.humanDetected == (st.humanDetected || IsHumanGreeting(text))
      && r.capturedData == Extracted(st.capturedData, text)
      && r.dtmfSent == st.dtmfSent
      && (actions == [] <==> IvrChoice(text).None?)
      && forall a :: a in actions ==> a == ScheduleDtmf(IvrChoice(text).value, IvrDtmfDelay)
  {
  }

  /** Over any event the saved status can only move from failed towards completed and voicemail. */
  lemma StatusNeverRegresses(st: SessionState, ev: AiEvent, callSid: Option<string>, streamSid: Option<string>, now: int)
    requires ValidState(st)
    ensures var r := AiStep(st, ev, callSid, streamSid, now).0;
      StatusRank(SavedStatus(st.voicemailDetected, st.humanDetected))
        <= StatusRank(SavedStatus(r.voicemailDetected, r.humanDetected))
  {
    AiStepGrowsAndKeepsValid(st, ev, callSid, streamSid, now);
    var r := AiStep(st, ev, callSid, streamSid, now).0;
    SavedStatusMonotone(st.voicemailDetected, st.humanDetected, r.voicemailDetected, r.humanDetected);
  }
}
