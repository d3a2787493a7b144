/**
 * The per-call state of the bridge (`CallSession` in vendedor-ia-mejorado.js)
 * and the module-level `sessions` registry keyed by the provider's call id.
 */
module CallSessions {
  import opened Wrappers
  import opened Text
  import opened Detection
  import opened Extraction
  import opened CallPrompt

  datatype Speaker = Agent | Client

  /** One transcript line; the timestamp is the clock reading passed in. */
  datatype Entry = Entry(speaker: Speaker, text: string, timestamp: int)

  /** The row `saveToDatabase` inserts (without `created_at`). */
  datatype SavedCall = SavedCall(
    callSid: string,
    clientId: string,
    transcript: seq<Entry>,
    capturedData: CapturedData,
    voicemailDetected: bool,
    humanDetected: bool,
    durationSeconds: int,
    status: string)

  /** The mutable part of a session, as one value. */
  datatype SessionState = SessionState(
    transcript: seq<Entry>,
    capturedData: CapturedData,
    voicemailDetected: bool,
    humanDetected: bool,
    dtmfSent: seq<string>)

  const InitialState := SessionState([], NoData, false, false, [])

  /** Captured fields are well formed and every digit string sent is a non-empty run of digits. */
  predicate ValidState(st: SessionState) {
    && WellFormed(st.capturedData)
    && forall i :: 0 <= i < |st.dtmfSent| ==> st.dtmfSent[i] != [] && AllDigits(st.dtmfSent[i])
  }

  /** The saved status: voicemail wins over a detected person, and neither means failure. */
  function SavedStatus(voicemail: bool, human: bool): (r: string)
    ensures r == "voicemail" <==> voicemail
    ensures r == "completed" <==> !voicemail && human
    ensures r == "failed" <==> !voicemail && !human
  {
    if voicemail then "voicemail" else if human then "completed" else "failed"
  }

  function StatusRank(status: string): nat {
    if status == "voicemail" then 2 else if status == "completed" then 1 else 0
  }

  /**
   * The detection flags only ever go from false to true, so over a call the
   * saved status can only move from failed towards completed and voicemail.
   */
  lemma SavedStatusMonotone(v: bool, h: bool, v': bool, h': bool)
    requires v ==> v'
    requires h ==> h'
    ensures StatusRank(SavedStatus(v, h)) <= StatusRank(SavedStatus(v', h'))
  {
  }

  /** `Math.floor((now - startTime) / 1000)`: whole seconds elapsed. */
  function DurationSeconds(startTime: int, now: int): (d: int)
    ensures d * 1000 <= now - startTime < d * 1000 + 1000
  {
    (now - startTime) / 1000
  }

  /** The row saved for a session in state `st`, started at `startTime`, at clock reading `now`. */
  function SavedRow(callSid: string, clientId: string, startTime: int, st: SessionState, now: int): (r: SavedCall)
    ensures r.status == SavedStatus(st.voicemailDetected, st.humanDetected)
    ensures r.transcript == st.transcript && r.capturedData == st.capturedData
    ensures r.durationSeconds * 1000 <= now - startTime < r.durationSeconds * 1000 + 1000
  {
    SavedCall(callSid, clientId, st.transcript, st.capturedData, st.voicemailDetected, st.humanDetected,
              DurationSeconds(startTime, now), SavedStatus(st.voicemailDetected, st.humanDetected))
  }

  class CallSession {
    const callSid: string
    const streamSid: string
    const clientId: string
    const config: CallConfig
    const startTime: int
    var transcript: seq<Entry>
    var capturedData: CapturedData
    var voicemailDetected: bool
    var humanDetected: bool
    var dtmfSent: seq<string>

    function State(): SessionState
      reads this
    {
      SessionState(transcript, capturedData, voicemailDetected, humanDetected, dtmfSent)
    }

    ghost predicate Valid()
      reads this
    {
      ValidState(State())
    }

    constructor(callSid: string, streamSid: string, clientId: string, config: CallConfig, now: int)
      ensures Valid()
      ensures this.callSid == callSid && this.streamSid == streamSid
      ensures this.clientId == clientId && this.config == config && startTime == now
      ensures State() == InitialState
    {
      this.callSid := callSid;
      this.streamSid := streamSid;
      this.clientId := clientId;
      this.config := config;
      startTime := now;
      transcript := [];
      capturedData := NoData;
      voicemailDetected := false;
      humanDetected := false;
      dtmfSent := [];
    }

    /** Appends one line at the end; earlier lines stay as they were. */
    method AddTranscript(speaker: Speaker, text: string, now: int)
      modifies this`transcript
      ensures transcript == old(transcript) + [Entry(speaker, text, now)]
    {
      transcript := transcript + [Entry(speaker, text, now)];
    }

    /** Reports a voicemail phrase and raises the flag then; never lowers it. */
    method DetectVoicemail(text: string) returns (detected: bool)
      modifies this`voicemailDetected
      ensures detected == IsVoicemail(text)
      ensures voicemailDetected == (old(voicemailDetected) || detected)
    {
      var lower := Lower(text);
      detected := ContainsAny(lower, VoicemailKeywords);
      if detected {
        voicemailDetected := true;
      }
    }

    /** Reports a greeting and raises the flag then; never lowers it. */
    method DetectHuman(text: string) returns (detected: bool)
      modifies this`humanDetected
      ensures detected == IsHumanGreeting(text)
      ensures humanDetected == (old(humanDetected) || detected)
    {
      var lower := Lower(text);
      if ContainsAny(lower, HumanKeywords) {
        humanDetected := true;
        return true;
      }
      return false;
    }

    /**
     * Scans every instruction, keeps the categorized ones with their
     * priority, sorts them stably by priority and returns the first one's
     * digits.
     */
    method DetectIvrOption(text: string) returns (r: Option<string>)
      ensures r == IvrChoice(text)
    {
      var lower := Lower(text);
      var options: seq<IvrOption> := [];
      var lastIndex: nat := 0;
      while true
        invariant lastIndex <= |lower|
        invariant Options(lower) == options + OptionsFrom(lower, lastIndex)
        decreases |lower| - lastIndex
      {
        var m := FindFrom(lower, lastIndex);
        if m.None? {
          OptionsFromStep(lower, lastIndex);
          break;
        }
        ghost var before := options;
        var c := CategoryOf(Window(lower, m.value.index));
        if c.Some? {
          options := options + [IvrOption(m.value.digits, Priority(c.value), c.value)];
        }
        ScanStep(lower, lastIndex, before, options);
        lastIndex := m.value.end;
      }
      assert options == Options(lower) by {
        assert options + [] == options;
      }
      var sorted := SortByPriority(options);
      SortedChoice(text);
      if |sorted| > 0 {
        r := Some(sorted[0].number);
      } else {
        r := None;
      }
    }

    /** Replaces e-mail and phone with the line's matches, where there are any. */
    method ExtractData(text: string)
      requires Valid()
      modifies this`capturedData
      ensures Valid()
      ensures capturedData == Extracted(old(capturedData), text)
    {
      var emailMatch := EmailMatch(text);
      if emailMatch.Some? {
        capturedData := capturedData.(email := emailMatch);
      }
      var phoneMatch := PhoneMatch(text);
      if phoneMatch.Some? {
        capturedData := capturedData.(phone := phoneMatch);
      }
      ExtractedWellFormed(old(capturedData), text);
    }

    /** The row `saveToDatabase` writes at clock reading `now`. */
    function Record(now: int): (r: SavedCall)
      reads this
      ensures r == SavedRow(callSid, clientId, startTime, State(), now)
    {
      SavedCall(callSid, clientId, transcript, capturedData, voicemailDetected, humanDetected,
                DurationSeconds(startTime, now), SavedStatus(voicemailDetected, humanDetected))
    }
  }

  /** The `sessions` map: live sessions by call id. */
  class Registry {
    var sessions: map<string, CallSession>

    constructor()
      ensures sessions == map[]
    {
      sessions := map[];
    }

    /** `sessions.set(callSid, session)`. */
    method Set(callSid: string, session: CallSession)
      modifies this
      ensures sessions == old(sessions)[callSid := session]
    {
      sessions := sessions[callSid := session];
    }

    /** `sessions.delete(callSid)`. */
    method Delete(callSid: string)
      modifies this
      ensures sessions == old(sessions) - {callSid}
    {
      sessions := sessions - {callSid};
    }
  }
}
