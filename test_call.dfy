/**
 * The browser test-call screen (screens/TestCallScreen.js): the call timer
 * text, the transcript it shows, and the timer that sends recorded audio to
 * the test server every few seconds.
 */
module TestCall {
  import opened Wrappers
  import opened Text
  import opened TestServer
  import MediaStream

  // ---------------------------------------------------------------------
  // The call timer
  // ---------------------------------------------------------------------

  /** `(secs < 10 ? '0' : '') + secs` for the seconds of a minute. */
  function SecondsText(secs: nat): (t: string)
    requires secs < 60
    ensures |t| == 2 && AllDigits(t)
    ensures ParseNat(t) == secs
    ensures t[0] == '0' <==> secs < 10
  {
    var digits := NatToString(secs);
    ParseNatToString(secs);
    if secs < 10 then
      assert ParseNat("0" + digits) == ParseNat(digits) by {
        assert ("0" + digits)[..1] == "0";
      }
      "0" + digits
    else
      assert |NatToString(secs / 10)| == 1;
      digits
  }

  /** `formatDuration`: whole minutes, a colon and the two-digit seconds. */
  function FormatDuration(seconds: nat): string {
    NatToString(seconds / 60) + ":" + SecondsText(seconds % 60)
  }

  /** The index of the first `c` in `s`, if any. */
  function IndexOf(s: string, c: char): (r: Option<nat>)
    ensures r.Some? ==> r.value < |s| && s[r.value] == c && c !in s[..r.value]
    ensures r.None? ==> c !in s
    decreases |s|
  {
    if s == [] then None
    else if s[0] == c then Some(0)
    else
      var r := IndexOf(s[1..], c);
      if r.Some? then
        assert s[..r.value + 1] == [s[0]] + s[1..][..r.value];
        Some(r.value + 1)
      else None
  }

  /** Reads `m:ss` back as a number of seconds: the inverse of `FormatDuration`. */
  function ParseDuration(t: string): Option<nat> {
    match IndexOf(t, ':')
    case None => None
    case Some(k) =>
      if AllDigits(t[..k]) && AllDigits(t[k + 1..]) then Some(ParseNat(t[..k]) * 60 + ParseNat(t[k + 1..]))
      else None
  }

  lemma {:induction false} IndexOfAfter(a: string, c: char, b: string)
    requires c !in a
    ensures IndexOf(a + [c] + b, c) == Some(|a|)
    decreases |a|
  {
    if a != [] {
      assert (a + [c] + b)[1..] == a[1..] + [c] + b;
      IndexOfAfter(a[1..], c, b);
    }
  }

  /**
   * The timer text is the minutes, then a colon, then exactly two digits
   * holding the seconds below 60.
   */
  lemma FormatDurationShape(seconds: nat)
    ensures var f := FormatDuration(seconds);
      var k := |NatToString(seconds / 60)|;
      && |f| == k + 3
      && f[k] == ':'
      && AllDigits(f[..k]) && ParseNat(f[..k]) == seconds / 60
      && AllDigits(f[k + 1..]) && ParseNat(f[k + 1..]) < 60
      && ParseNat(f[k + 1..]) == seconds % 60
  {
    var m := NatToString(seconds / 60);
    var f := FormatDuration(seconds);
    assert f[..|m|] == m;
    assert f[|m| + 1..] == SecondsText(seconds % 60);
    ParseNatToString(seconds / 60);
  }

  /** Reading the timer text back gives the number of seconds it was made from. */
  lemma FormatDurationRoundTrip(seconds: nat)
    ensures ParseDuration(FormatDuration(seconds)) == Some(seconds)
  {
    var m := NatToString(seconds / 60);
    assert ':' !in m by {
      assert forall i :: 0 <= i < |m| ==> m[i] != ':';
    }
    IndexOfAfter(m, ':', SecondsText(seconds % 60));
    FormatDurationShape(seconds);
  }

  // ---------------------------------------------------------------------
  // The screen
  // ---------------------------------------------------------------------

  /** One transcript line; the time of day is the formatted clock reading passed in. */
  datatype Message = Message(speaker: string, text: string, time: string)

  /** The `send-audio` payload the audio timer emits. */
  function ChunkPayload(sessionId: string, audio: string): SendAudioPayload {
    SendAudioPayload(Some(sessionId), None, Some(audio))
  }

  /** The audio timer may send only with a recording and a socket, unmuted, during a call. */
  predicate CanSendAudio(hasRecording: bool, hasSocket: bool, isMuted: bool, callActive: bool) {
    hasRecording && hasSocket && !isMuted && callActive
  }

  /** The `isMuted` and `callActive` state values one render of the screen sees. */
  datatype Render = Render(isMuted: bool, callActive: bool)

  /**
   * The running audio interval: the session id `sendAudioChunks` was given
   * and the render whose values its callback closed over.
   */
  datatype AudioTimer = AudioTimer(sessionId: string, seen: Render)

  const StartingText := "Iniciando llamada..."
  const RecordingErrorText := "Error al iniciar grabación: "
  const EndedText := "Llamada finalizada - Duracion: "

  class TestCallScreen {
    var transcript: seq<Message>
    /** Whether `recordingRef.current` holds a recording. */
    var recording: bool
    var callActive: bool
    var isMuted: bool
    /**
     * The render in which `startCall` ran, once it has: the socket handlers
     * it registers, and everything they call, see that render's values.
     */
    var startedIn: Option<Render>
    /** `audioInterval.current`, with what its callback captured. */
    var audioTimer: Option<AudioTimer>

    /**
     * The call is started from the button shown only while no call is
     * active, so every closure started with it saw the call inactive.
     */
    predicate Valid()
      reads this
    {
      && (startedIn.Some? ==> !startedIn.value.callActive)
      && (audioTimer.Some? ==> !audioTimer.value.seen.callActive)
    }

    constructor()
      ensures transcript == [] && !recording && !callActive && !isMuted
      ensures startedIn.None? && audioTimer.None?
      ensures Valid()
    {
      transcript := [];
      recording := false;
      callActive := false;
      isMuted := false;
      startedIn := None;
      audioTimer := None;
    }

    /** `addMessage`: one message at the end; the earlier ones stay, in order. */
    method AddMessage(speaker: string, text: string, time: string)
      modifies this`transcript
      ensures transcript == old(transcript) + [Message(speaker, text, time)]
      ensures |transcript| == |old(transcript)| + 1
    {
      transcript := transcript + [Message(speaker, text, time)];
    }

    /**
     * `startCall`, pressed on the button rendered while `!callActive`.
     * Without the microphone permission nothing changes; otherwise a system
     * line is logged and the handlers are registered in this render.
     */
    method StartCall(permissionGranted: bool, time: string)
      requires Valid() && !callActive
      modifies this`transcript, this`startedIn
      ensures Valid()
      ensures !permissionGranted ==> transcript == old(transcript) && startedIn == old(startedIn)
      ensures permissionGranted ==> transcript == old(transcript) + [Message("system", StartingText, time)]
      ensures permissionGranted ==> startedIn == Some(Render(isMuted, false))
    {
      if !permissionGranted {
        return;
      }
      AddMessage("system", StartingText, time);
      startedIn := Some(Render(isMuted, callActive));
    }

    /**
     * The `session-started` handler: the call becomes active, then
     * `startContinuousRecording` either fails, logging `recordingError`, or
     * holds the new recording and starts the audio interval, whose callback
     * closes over the render `startCall` ran in.
     */
    method OnSessionStarted(sessionId: string, recordingError: Option<string>, time: string)
      requires Valid() && startedIn.Some?
      modifies this`callActive, this`recording, this`audioTimer, this`transcript
      ensures Valid() && callActive
      ensures recordingError.Some? ==>
        && transcript == old(transcript) + [Message("system", RecordingErrorText + recordingError.value, time)]
        && recording == old(recording) && audioTimer == old(audioTimer)
      ensures recordingError.None? ==>
        && transcript == old(transcript) && recording
        && audioTimer == Some(AudioTimer(sessionId, startedIn.value))
    {
      callActive := true;
      if recordingError.Some? {
        AddMessage("system", RecordingErrorText + recordingError.value, time);
      } else {
        recording := true;
        audioTimer := Some(AudioTimer(sessionId, startedIn.value));
      }
    }

    /** `toggleMute`: muting also stops and drops the recording; unmuting starts none. */
    method ToggleMute()
      requires Valid()
      modifies this`isMuted, this`recording
      ensures Valid()
      ensures isMuted == !old(isMuted)
      ensures recording == (old(recording) && old(isMuted))
    {
      if !isMuted {
        recording := false;
      }
      isMuted := !isMuted;
    }

    /** `endCall`: the call ends, both timers stop, the recording is dropped and the duration is logged. */
    method EndCall(callDuration: nat, time: string)
      requires Valid()
      modifies this`callActive, this`audioTimer, this`recording, this`transcript
      ensures Valid()
      ensures !callActive && audioTimer.None? && !recording
      ensures transcript == old(transcript) + [Message("system", EndedText + FormatDuration(callDuration), time)]
    {
      callActive := false;
      audioTimer := None;
      recording := false;
      AddMessage("system", EndedText + FormatDuration(callDuration), time);
    }

    /**
     * One tick of the audio interval, as written: the guard reads the
     * `isMuted` and `callActive` the callback captured; the socket is the
     * one `startCall` created, so it is always there. `recorded` is the
     * base64 text of the stopped recording's file, `None` when it has no
     * URI. Since the captured `callActive` is always false, no tick sends.
     */
    method AudioTick(recorded: Option<string>) returns (emitted: Option<SendAudioPayload>)
      requires audioTimer.Some?
      ensures var t := audioTimer.value;
        emitted.Some? <==> CanSendAudio(recording, true, t.seen.isMuted, t.seen.callActive) && recorded.Some?
      ensures emitted.Some? ==> emitted.value == ChunkPayload(audioTimer.value.sessionId, recorded.value)
      ensures Valid() ==> emitted.None?
    {
      var t := audioTimer.value;
      if !recording || t.seen.isMuted || !t.seen.callActive {
        return None;
      }
      if recorded.Some? {
        emitted := Some(ChunkPayload(t.sessionId, recorded.value));
      } else {
        emitted := None;
      }
    }

    /**
     * The tick as evidently intended: the guard reads the screen's current
     * state (through a ref) rather than the captured one, so during an
     * unmuted call with a recording each recorded chunk is sent.
     */
    method AudioTickCorrected(recorded: Option<string>) returns (emitted: Option<SendAudioPayload>)
      requires audioTimer.Some?
      ensures emitted.Some? <==> CanSendAudio(recording, true, isMuted, callActive) && recorded.Some?
      ensures emitted.Some? ==> emitted.value == ChunkPayload(audioTimer.value.sessionId, recorded.value)
    {
      if !recording || isMuted || !callActive {
        return None;
      }
      if recorded.Some? {
        emitted := Some(ChunkPayload(audioTimer.value.sessionId, recorded.value));
      } else {
        emitted := None;
      }
    }
  }

  /**
   * A call started with the microphone allowed, whose recording starts,
   * then one tick with recorded audio: as written the tick sends nothing,
   * while the corrected tick sends that audio.
   */
  method StartedCallTick(sessionId: string, audio: string)
    returns (asWritten: Option<SendAudioPayload>, corrected: Option<SendAudioPayload>)
    ensures asWritten.None?
    ensures corrected == Some(ChunkPayload(sessionId, audio))
  {
    var screen := new TestCallScreen();
    screen.StartCall(true, "");
    screen.OnSessionStarted(sessionId, None, "");
    asWritten := screen.AudioTick(Some(audio));
    corrected := screen.AudioTickCorrected(Some(audio));
  }

  // ---------------------------------------------------------------------
  // The audio field the server reads
  // ---------------------------------------------------------------------

  /**
   * As written, the server appends the payload's `audioData`, which the
   * screen never sets: every recorded chunk the screen sends (with its timer
   * guard corrected) reaches the speech model as an append without audio.
   */
  lemma ChunkAudioIsDropped(sessionId: string, audio: string)
    ensures SendAudio(Some(MediaStream.Open), ChunkPayload(sessionId, audio))
         == [SendUpstream(AppendInputAudio(None)), ScheduleCommit(CommitDelay)]
  {
  }

  /** Reading `audioBase64`, the recorded chunk reaches the speech model unchanged. */
  lemma ChunkAudioReachesModel(sessionId: string, audio: string)
    ensures SendAudioCorrected(Some(MediaStream.Open), ChunkPayload(sessionId, audio))
         == [SendUpstream(AppendInputAudio(Some(audio))), ScheduleCommit(CommitDelay)]
  {
  }
}
