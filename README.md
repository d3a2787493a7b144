# AI phone seller: a verified model of its call logic

This project models the core of an AI phone-sales system in Dafny:

- a Node.js bridge (`vendedor-ia-mejorado.js`) connects a phone provider's media stream to a realtime speech model;
- a browser-test server (`server.js`) relays a test screen's audio to the same model;
- a few React Native screens build client profiles, run test calls and list leads.

The model covers the decisions these programs make, not their I/O.

- **Call sessions** (`CallSessions`, `call_session.dfy`). `CallSession` is a class whose methods update its fields in place:
  - the append-only transcript;
  - the voicemail and person flags, which are only ever raised;
  - the captured e-mail and phone;
  - the log of DTMF digits sent.

  `Registry` is the module-level map of live sessions. The saved row's status and duration are derived from the session.
- **Detection** (`Detection`, `detection.dfy`):
  - the keyword classifiers;
  - the phone-menu scanner `/(?:marque|presione|press)\s*(\d+)/gi`, written as leftmost-first matching;
  - the 50-character category window;
  - the stable priority sort and the resulting menu choice;
  - the `[DTMF:n]` command tag.
- **Extraction** (`Extraction`, `extraction.dfy`): the e-mail and phone regular expressions, written as greedy matchers, and the overwrite rule of `extractData`.
- **Dispatch** (`Dispatch`, `dispatch.dfy`). The speech model's events are a pure step function over the session state. It returns the actions the bridge asks of the outside world (`Hangup`, `SendDtmf`, `ScheduleDtmf`, `PlayAudio`, ...), and does not perform them.
- **Connection handler** (`MediaStream`, `media_stream.dfy`). The per-connection `StreamHandler` class has the handlers of both sockets and the close handler. Each handler is proved against the dispatch step.
- **Prompts**:
  - `CallPrompt` (`call_prompt.dfy`) builds the bridge's prompt. The command tags it teaches are the ones the dispatcher recognises.
  - `TestServer` (`test_server.dfy`) builds the test server's prompt, which has its own defaults.
- **WAV container** (`Wav`, `wav.dfy`). `pcm16ToWav` writes a 44-byte RIFF/WAVE header field by field into an array, using little-endian writes. It is proved equal to a value-level description of the file.
- **Test server relay** (`TestServer`). It covers:
  - the `response.done` output/content walk, as nested loops;
  - the `user-message` and `agent-audio` relays;
  - the `send-audio` readyState gate.
- **Screens**:
  - `ClientConfig` (`client_config.dfy`): the new-client form's required-field check, `client_id` slug and product-list normalisation.
  - `TestCall` (`test_call.dfy`): the `m:ss` call timer, the transcript append and the audio-timer guard.
  - `Leads` (`leads.dfy`): the status colour and label mappings.

Clock readings, the time of day, randomness and decoded payloads are parameters. Calls to the phone provider, the database and timers appear as returned actions.

## Model

| member | source | states |
|---|---|---|
| CallSessions.CallSession.constructor | vendedor-ia-mejorado.js:60-71 | a new session has an empty transcript, no captured data, both flags false, no digits sent, and the start time is the clock reading |
| CallSessions.CallSession.AddTranscript | vendedor-ia-mejorado.js:73-76 | exactly one entry (speaker, text, clock reading) is appended at the end; earlier entries are unchanged |
| CallSessions.CallSession.DetectVoicemail | vendedor-ia-mejorado.js:78-86 | returns whether the lowercased line contains a voicemail keyword; the flag becomes old flag or detected, so it is never reset |
| CallSessions.CallSession.DetectHuman | vendedor-ia-mejorado.js:88-96 | returns whether the lowercased line contains bueno, hola or diga; the flag is only ever raised |
| CallSessions.CallSession.DetectIvrOption | vendedor-ia-mejorado.js:98-123 | the scanning loop with its push and sort returns exactly `IvrChoice(text)`; the loop invariant ties the options pushed so far to the options of the instructions already scanned |
| CallSessions.CallSession.ExtractData | vendedor-ia-mejorado.js:125-137 | e-mail and phone are replaced by the line's matches when there are any and kept otherwise; captured data stays well formed |
| CallSessions.CallSession.Record | vendedor-ia-mejorado.js:139-155 | the saved row is the session's state with the derived duration and status |
| CallSessions.SavedStatus | vendedor-ia-mejorado.js:153 | 'voicemail' iff voicemail was detected; 'completed' iff a person was detected and no voicemail; 'failed' iff neither |
| CallSessions.SavedStatusMonotone | vendedor-ia-mejorado.js:153 | raising flags can only move the status from failed towards completed and voicemail |
| CallSessions.DurationSeconds | vendedor-ia-mejorado.js:141 | the duration d is the floor of elapsed milliseconds over 1000: d*1000 <= elapsed < d*1000+1000 |
| CallSessions.SavedRow | vendedor-ia-mejorado.js:145-153 | the row carries the state's transcript and captured data, the status of its flags and the floored duration |
| CallSessions.Registry.Set | vendedor-ia-mejorado.js:328 | the map gains (or replaces) exactly the entry for the call id |
| CallSessions.Registry.Delete | vendedor-ia-mejorado.js:349 | the map loses exactly the call id's entry |
| Detection.KeywordDetectionIsLocal | vendedor-ia-mejorado.js:78-96 | a line that triggers a classifier still triggers it with any text around it |
| Detection.KeywordDetectionIgnoresCase | vendedor-ia-mejorado.js:79-80 | the classifiers give the same answer on a line and its lowercase form |
| Detection.CategoryOf | vendedor-ia-mejorado.js:106-114 | a window has a category iff it contains a keyword of any of the three lists; it is compras iff it holds a compras keyword, ventas iff it holds a ventas keyword and no compras one, operadora iff it holds an operadora keyword and neither of the others |
| Detection.OptionsFromStep | vendedor-ia-mejorado.js:104-115 | the options from a scan position are the current match's option followed by the options after that match; none when no match remains |
| Detection.ScanStep | vendedor-ia-mejorado.js:104-115 | one loop iteration keeps the invariant options-so-far + options-of-the-rest = all options |
| Detection.InsertSorted | vendedor-ia-mejorado.js:118 | inserting into a priority-sorted list keeps it sorted |
| Detection.SortByPriority | vendedor-ia-mejorado.js:118 | the sort returns a sorted permutation (same multiset) of the options |
| Detection.SortHeadIsFirstBest | vendedor-ia-mejorado.js:117-120 | the head of the stable sort is the earliest option of minimum priority |
| Detection.SortedChoice | vendedor-ia-mejorado.js:117-122 | there is no choice iff the sorted list is empty; otherwise the choice is the digits of the sorted head |
| Detection.IvrChoiceNoneIff | vendedor-ia-mejorado.js:98-122 | no choice iff no instruction has a category keyword within the 50 characters before it |
| Detection.IvrChoiceIsInstructionDigits | vendedor-ia-mejorado.js:100-105 | the chosen digits are non-empty, all decimal, and are the digit run of a matched instruction with a category |
| Detection.IvrChoiceIsBest | vendedor-ia-mejorado.js:108-120 | the chosen digits come from an option of minimum priority with no earlier option of that priority |
| Detection.DtmfCommandSound | vendedor-ia-mejorado.js:263-265 | a recognised command's digits are non-empty, all decimal, and the line contains `[DTMF:` digits `]` |
| Detection.DtmfCommandComplete | vendedor-ia-mejorado.js:263 | any well-formed `[DTMF:digits]` tag in the line is recognised |
| Extraction.EmailMatchShape | vendedor-ia-mejorado.js:126-128 | a captured address is a substring of the line with the shape local@domain.tld: local characters, one '@', domain characters, and a dot followed only by letters, at least 2 of them |
| Extraction.PhoneMatchIsPhoneNumber | vendedor-ia-mejorado.js:132-134 | a captured phone is all digits and has at least ten of them |
| Extraction.PhoneFoundWhenTenDigits | vendedor-ia-mejorado.js:132 | a line with ten consecutive digits always yields a phone |
| Extraction.ExtractedWellFormed | vendedor-ia-mejorado.js:125-137 | extraction keeps every captured field well formed |
| CallPrompt.OrDefault | vendedor-ia-mejorado.js:32 | a missing or empty field falls back to the default; any other value is kept |
| CallPrompt.PromptTeachesRecognisedCommands | vendedor-ia-mejorado.js:31-55 | for every profile the prompt contains the voicemail and person tags and a DTMF tag that the dispatcher recognises |
| CallPrompt.PromptUsesProfile | vendedor-ia-mejorado.js:32-45 | the agent name, company and pitch (or their defaults) appear in the prompt |
| CallPrompt.EmptyFieldsUseDefaults | vendedor-ia-mejorado.js:32-45 | empty profile fields give the same prompt as missing ones |
| Dispatch.AiStepGrowsAndKeepsValid | vendedor-ia-mejorado.js:239-315 | every event keeps the transcript and DTMF log as extensions of the old ones, never lowers a flag and keeps the state valid |
| Dispatch.LogDigitsKeepsValid | vendedor-ia-mejorado.js:268 | logging a non-empty digit string keeps the state valid and only extends the log |
| Dispatch.DtmfFiredKeepsValid | vendedor-ia-mejorado.js:302-305 | the menu timer logs the chosen digits, and the state stays valid |
| Dispatch.VoicemailTagTakesPrecedence | vendedor-ia-mejorado.js:257-261 | a delta with the voicemail tag only raises the voicemail flag and asks for a hangup after 500 ms, whatever other tags it has |
| Dispatch.DtmfLogGrowsOnlyOnCommand | vendedor-ia-mejorado.js:262-270 | the DTMF log grows by one iff there is no voicemail tag and a `[DTMF:n]` command matches; it then grows by exactly those digits |
| Dispatch.VoicemailLineStopsThere | vendedor-ia-mejorado.js:290-296 | a voicemail client line is logged, raises the flag and asks only for a hangup after 1000 ms; person, menu and extraction do not run |
| Dispatch.OtherLineRunsEveryDetector | vendedor-ia-mejorado.js:297-308 | any other line runs person detection, the menu choice (scheduling its digits after 1000 ms) and extraction |
| Dispatch.StatusNeverRegresses | vendedor-ia-mejorado.js:153 | no event can lower the status a save would record |
| MediaStream.AfterClose | vendedor-ia-mejorado.js:352-354 | closing moves a connecting or open socket to closing and leaves closing or closed ones |
| MediaStream.SavesAppend | vendedor-ia-mejorado.js:348 | the number of saves in two action lists adds up |
| MediaStream.StreamHandler.constructor | vendedor-ia-mejorado.js:189-193 | the client id is the query's, or 'unknown' when it is missing or empty; there is no call yet |
| MediaStream.StreamHandler.OnUpstreamOpen | vendedor-ia-mejorado.js:220-237 | the speech model is configured with the prompt built from the profile |
| MediaStream.StreamHandler.OnAiMessage | vendedor-ia-mejorado.js:239-315 | the session's new state and the actions are those of the dispatch step; without a session only audio is relayed |
| MediaStream.StreamHandler.FireScheduledDtmf | vendedor-ia-mejorado.js:302-305 | the timer sends the digits and then logs them |
| MediaStream.StreamHandler.OnPhoneMessage | vendedor-ia-mejorado.js:317-360 | start creates and registers a fresh session; media is forwarded only while the upstream socket is open; stop saves, unregisters and closes upstream |
| MediaStream.StreamHandler.OnClose | vendedor-ia-mejorado.js:362-370 | closing saves the session again, if there is one, and closes upstream |
| MediaStream.StopThenClose | vendedor-ia-mejorado.js:339-370 | a call that stops and then closes is saved twice and ends up unregistered |
| Wav.DecodeEncodeUInt16 | server.js:412-413 | decoding an encoded 16-bit little-endian field gives back the value |
| Wav.EncodeDecodeUInt16 | server.js:412-413 | encoding a decoded 2-byte field gives back the bytes |
| Wav.DecodeEncodeUInt32 | server.js:408 | decoding an encoded 32-bit little-endian field gives back the value |
| Wav.EncodeDecodeUInt32 | server.js:408 | encoding a decoded 4-byte field gives back the bytes |
| Wav.WavLayout | server.js:405-421 | the file has length 44 + N and bytes from 44 on are the PCM input, unchanged and in order |
| Wav.WavTags | server.js:407-418 | 'RIFF' is at 0, 'WAVE' at 8, 'fmt ' at 12 and 'data' at 36 |
| Wav.WavParts | server.js:407-419 | the file's bytes 0-11, 12-35 and 36-43 are the RIFF, fmt and data parts |
| Wav.WavFields | server.js:408-419 | decoding gives RIFF size 36+N, fmt size 16, format 1, the channels, the sample rate, byte rate rate*channels*2, block align channels*2, 16 bits and data size N |
| Wav.FormatFields | server.js:410-417 | the fmt chunk's fields decode to what was written |
| Wav.WavFailsIffOutOfRange | server.js:408-419 | the builder fails iff a field is out of its range, and reports the offset of the first write that throws |
| Wav.DefaultsGiveMono24k | server.js:403-416 | with the defaults 24000 Hz and 1 channel, the byte rate is 48000 and the block align is 2 |
| Wav.WriteUInt32LE | server.js:408 | the write succeeds iff the value fits in 32 bits, then writes its little-endian bytes and nothing else |
| Wav.WriteUInt16LE | server.js:412 | the write succeeds iff the value fits in 16 bits, then writes its little-endian bytes and nothing else |
| Wav.WriteRiffPart | server.js:407-409 | bytes 0-11 become the RIFF part iff 36+N fits in 32 bits |
| Wav.WriteFormatPart | server.js:410-417 | bytes 12-35 become the fmt part iff its fields are in range; otherwise the offset of the first write that throws; bytes 0-11 are kept |
| Wav.WriteDataPart | server.js:418-419 | bytes 36-43 become the data part; bytes 0-35 are kept |
| Wav.Pcm16ToWav | server.js:403-422 | the array-filling builder returns exactly the file `WavFile` describes, or the error offset |
| TestServer.ProductsText | server.js:396 | missing products give 'nuestros productos'; otherwise the text is the products in order joined with ', ', so every product appears in it |
| TestServer.ServerPromptUsesProfile | server.js:395-401 | the seller, company, products, pricing and minimum order (or their defaults) appear in the prompt |
| TestServer.ServerPromptDefaults | server.js:396-400 | an empty profile gets 'un vendedor', 'nuestros productos', 'segun volumen' and 'consultar', and the company reads 'undefined' |
| TestServer.ProductInPrompt | server.js:396-400 | every product of the profile is named in the prompt |
| TestServer.AgentTextsAppend | server.js:316-330 | the texts of concatenated outputs are the texts of each part, in order |
| TestServer.AgentTextsMember | server.js:316-330 | a text is relayed iff it is the text of a `text` item of a `message` output |
| TestServer.AgentMessages | server.js:321-325 | one agent message per text, in order |
| TestServer.CollectAgentMessages | server.js:316-330 | the nested loops emit exactly one agent message per relayed text, in output and content order; nothing when there is no output |
| TestServer.OnUpstreamEvent | server.js:307-342 | a finished transcription is relayed as a user message; a finished response as its agent messages; a non-empty audio delta as a WAV of 44+N bytes ending in the delta, or nothing when the header throws |
| TestServer.SendAudio | server.js:360-368 | nothing happens unless the upstream socket exists and is open; then the payload's `audioData` is appended and the commit timer is armed for 500 ms |
| TestServer.SendAudioCorrected | server.js:360-368 | the same gate, appending the `audioBase64` the test screen sends |
| ClientConfig.Underscored | screens/ClientConfigScreen.js:20 | the result contains no whitespace |
| ClientConfig.UnderscoredOfNoSpace | screens/ClientConfigScreen.js:20 | text without whitespace is unchanged, so replacing again changes nothing |
| ClientConfig.RunBecomesOneUnderscore | screens/ClientConfigScreen.js:20 | a whitespace run between non-space characters becomes exactly one '_', and each side is replaced on its own |
| ClientConfig.Slug | screens/ClientConfigScreen.js:20 | the slug part of the client id has no whitespace |
| ClientConfig.ClientIdSplits | screens/ClientConfigScreen.js:20 | the client id splits at its last '_' into the slug and a decimal number that parses back to the clock reading |
| ClientConfig.NormalizeProductsShape | screens/ClientConfigScreen.js:24 | every product is non-empty, trimmed and comma-free; there are at most commas+1 of them |
| ClientConfig.NormalizeAppend | screens/ClientConfigScreen.js:24 | products on either side of a comma are normalised independently and keep their left-to-right order |
| ClientConfig.NormalizeJoin | screens/ClientConfigScreen.js:24 | a list of trimmed, non-empty, comma-free products joined with a comma and spaces normalises back to itself |
| ClientConfig.ClientConfigScreen.HandleSave | screens/ClientConfigScreen.js:11-26 | nothing is built iff a required field is empty; otherwise loading starts and the record has the slugged id, the fields copied unchanged and the normalised products |
| ClientConfig.ClientConfigScreen.FinishSave | screens/ClientConfigScreen.js:56-58 | loading stops |
| TestCall.SecondsText | screens/TestCallScreen.js:286 | the seconds text has exactly two digits, parses back to the seconds and starts with '0' iff they are below 10 |
| TestCall.FormatDurationShape | screens/TestCallScreen.js:283-287 | the timer text is minutes (floor of s/60), ':', then two digits holding s mod 60, below 60 |
| TestCall.FormatDurationRoundTrip | screens/TestCallScreen.js:283-287 | parsing the timer text back gives the number of seconds |
| TestCall.TestCallScreen.AddMessage | screens/TestCallScreen.js:264-276 | one message is appended at the end; earlier messages are kept in order |
| TestCall.TestCallScreen.constructor | screens/TestCallScreen.js:10-16 | the screen starts with no transcript, no recording, no active call, unmuted and with no timer |
| TestCall.TestCallScreen.StartCall | screens/TestCallScreen.js:51-57 | without permission nothing changes; otherwise 'Iniciando llamada...' is logged and the handlers see this render, in which no call is active |
| TestCall.TestCallScreen.OnSessionStarted | screens/TestCallScreen.js:69-79 | the call becomes active; a failed recording logs the error and starts no timer; otherwise the recording is held and the audio timer starts with the values the starting render saw |
| TestCall.TestCallScreen.ToggleMute | screens/TestCallScreen.js:229-239 | the mute flag flips; muting drops the recording, unmuting starts none |
| TestCall.TestCallScreen.EndCall | screens/TestCallScreen.js:241-262 | the call ends, the audio timer stops, the recording is dropped and the formatted duration is logged |
| TestCall.TestCallScreen.AudioTick | screens/TestCallScreen.js:165-192 | the guard reads the captured mute and call flags: a tick sends iff there is a recording, the captured render was unmuted and in a call, and there is audio, under `audioBase64`; with the screen's invariant it never sends |
| TestCall.TestCallScreen.AudioTickCorrected | screens/TestCallScreen.js:166 | reading the current flags, a tick sends the recorded audio iff there is a recording, the call is active and unmuted |
| TestCall.StartedCallTick | screens/TestCallScreen.js:51-192 | after starting a call and its recording, a tick with audio sends nothing as written and sends that audio when corrected |
| TestCall.ChunkAudioIsDropped | server.js:368 | as written, every chunk the screen sends reaches the speech model as an append without audio |
| TestCall.ChunkAudioReachesModel | screens/TestCallScreen.js:189-192 | with the corrected field, the recorded chunk reaches the speech model unchanged |
| Leads.StatusColor | screens/LeadsScreen.js:35-48 | the default slate colour is given iff the status is unknown; every colour is a '#rrggbb' code |
| Leads.ColorIdentifiesStatus | screens/LeadsScreen.js:35-48 | two statuses share a colour only when they are equal or both unknown |
| Leads.StatusLabel | screens/LeadsScreen.js:50-63 | an unknown status is shown unchanged; a known one gets a different label that is not itself a status |
| Leads.LabelsDistinct | screens/LeadsScreen.js:50-59 | the four known statuses get four different labels |
| Leads.KnownLabels | screens/LeadsScreen.js:52-59 | new, calling, contacted and failed read Nuevo, Llamando, Contactado and Fallido |

## Left out

- Database I/O (the profile lookup and the transcript insert) is left out. The profile is a parameter, and the insert is a `Save` action carrying the row.
- Phone-provider calls (`sendDtmf`, `hangupCall`, the incoming-call TwiML) are returned as `SendDtmf` and `Hangup` actions and are not performed.
- Timers (the hangup, menu and commit delays) are returned as actions with their delays. Their firing is a separate method (`FireScheduledDtmf`) or the constant `CommitMessages`.
  - The hangup timer reads `callSid` when it fires. The model uses the value at scheduling time, which is the same unless a second `start` arrives in between.
- Socket wiring, the `session.update` payload details other than the instructions, and logging are left out.
- base64 encoding and decoding are left out. The WAV builder works on decoded bytes, and the bridge passes audio payloads through as opaque strings.
- `toLowerCase` is modelled for ASCII and Latin-1 letters only. Other scripts are left unchanged.
- Clock readings, `toISOString`, `toLocaleTimeString` and `Math.random` message ids are parameters or left out. `created_at` is not part of the modelled rows.
- Concurrency between the awaited save in `stop` and the `close` handler is left out. Handlers run one at a time in the model.
- The `[EMAIL:]`, `[PHONE:]`, `[NAME:]` and `[TIMEOUT]` tags are taught by the prompt but never read by the dispatcher, so the model does not read them either.
- The `agent_name`, `company_name` and `pitch` profile fields are strings in the model. A non-string JSON value is not modelled.
- Saving is not idempotent. The close handler saves again after `stop` has saved (`StopThenClose` proves two saves), as the code does.
- A session is created on the phone provider's `start` event, and extraction overwrites earlier captures. Both follow the code.
- TestCall.TestCallScreen.AudioTick: the stop/restart of the recording object and its failure paths are left out. The guard reads the `isMuted` and `callActive` the timer's closure captured, as the code does.
- TestCall.TestCallScreen: the call-duration interval, the socket's `connect`, message, audio and `disconnect` handlers, and the socket disconnect in `endCall` are left out. They do not affect the audio timer.
- Detection.Window: JavaScript's `substring` counts UTF-16 code units, while the model counts Unicode scalar values. The 50-character window differs when the transcript holds characters outside the Basic Multilingual Plane, such as emoji.
- The Dashboard's contact rate (floating point), navigation, rendering and audio playback are UI and are left out.
- TestServer.OnUpstreamEvent: `event.response` is assumed present on `response.done`. A missing `response` throws in the code, and that is not modelled.

## Findings

| source | as written | input that shows it | evidently intended | confidence | as-written member | corrected member |
|---|---|---|---|---|---|---|
| screens/TestCallScreen.js:166 | the audio timer's guard reads `callActive` from the closure of the render in which `startCall` ran | press the call button, which is shown only while `!callActive` (screens/TestCallScreen.js:378-381), let the session start and the recording begin: every tick sees `callActive` false and returns, so no audio is ever sent | read the current call state, for example through a ref | high, not executed | TestCall.TestCallScreen.AudioTick, TestCall.StartedCallTick | TestCall.TestCallScreen.AudioTickCorrected, TestCall.StartedCallTick |
| server.js:368 | `send-audio` appends `data.audioData` | the test screen's payload `{sessionId, audioBase64}` (screens/TestCallScreen.js:189-192): `audioData` is undefined, so the append message has no audio; the screen sends such a payload once its timer guard is corrected | append the field the screen sends, `audioBase64` | high, not executed | TestServer.SendAudio, TestCall.ChunkAudioIsDropped | TestServer.SendAudioCorrected, TestCall.ChunkAudioReachesModel |
