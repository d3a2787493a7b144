/**
 * The browser-test socket server (server.js): the prompt it configures the
 * speech model with, what it relays to the test screen from the speech
 * model's socket (`user-message`, `agent-message` per text content of a
 * finished response, `agent-audio` wrapped as WAV) and the `send-audio`
 * handler that forwards recorded audio upstream.
 */
module TestServer {
  import opened Wrappers
  import opened Text
  import opened CallPrompt
  import opened Wav
  import MediaStream

  // ---------------------------------------------------------------------
  // The prompt
  // ---------------------------------------------------------------------

  /** The `conditions` object of a profile. */
  datatype Conditions = Conditions(minOrder: Option<string>, pricing: Option<string>)

  /** The profile fields `buildSystemPrompt` reads. */
  datatype ServerConfig = ServerConfig(
    agentName: Option<string>,
    companyName: Option<string>,
    products: Option<seq<string>>,
    conditions: Option<Conditions>)

  const DefaultSeller := "un vendedor"
  const DefaultProducts := "nuestros productos"
  const DefaultPricing := "segun volumen"
  const DefaultMinOrder := "consultar"

  /** A missing company name is concatenated as JavaScript's `undefined`. */
  const Undefined := "undefined"

  /**
   * `config.products ? config.products.join(', ') : 'nuestros productos'`:
   * any array, the empty one included, is truthy.
   */
  function ProductsText(products: Option<seq<string>>): (r: string)
    ensures products.None? ==> r == DefaultProducts
    ensures products.Some? ==> r == Join(products.value, ", ")
    ensures products.Some? ==> forall j :: 0 <= j < |products.value| ==> Contains(r, products.value[j])
  {
    if products.Some? then
      var r := Join(products.value, ", ");
      assert forall j :: 0 <= j < |products.value| ==> Contains(r, products.value[j]) by {
        forall j | 0 <= j < |products.value| {
          JoinContains(products.value, ", ", j);
        }
      }
      r
    else DefaultProducts
  }

  /** `config.conditions?.min_order || 'consultar'`. */
  function MinOrderText(c: ServerConfig): string {
    OrDefault(if c.conditions.Some? then c.conditions.value.minOrder else None, DefaultMinOrder)
  }

  /** `config.conditions?.pricing || 'segun volumen'`. */
  function PricingText(c: ServerConfig): string {
    OrDefault(if c.conditions.Some? then c.conditions.value.pricing else None, DefaultPricing)
  }

  /** The company name as string concatenation renders it. */
  function CompanyText(c: ServerConfig): string {
    if c.companyName.Some? then c.companyName.value else Undefined
  }

  /** The template's pieces in order; the prompt is their concatenation. */
  function ServerPieces(c: ServerConfig): seq<string> {
    ["Eres ", OrDefault(c.agentName, DefaultSeller), " de ", CompanyText(c),
     ". Productos: ", ProductsText(c.products), ". Precios: ", PricingText(c),
     ". Pedido minimo: ", MinOrderText(c),
     ". Habla de forma natural y conversacional en espanol mexicano."]
  }

  function BuildServerPrompt(c: ServerConfig): string {
    Join(ServerPieces(c), "")
  }

  /** The seller, company, products, pricing and minimum order all appear in the prompt. */
  lemma ServerPromptUsesProfile(c: ServerConfig)
    ensures Contains(BuildServerPrompt(c), OrDefault(c.agentName, DefaultSeller))
    ensures Contains(BuildServerPrompt(c), CompanyText(c))
    ensures Contains(BuildServerPrompt(c), ProductsText(c.products))
    ensures Contains(BuildServerPrompt(c), PricingText(c))
    ensures Contains(BuildServerPrompt(c), MinOrderText(c))
  {
    JoinContains(ServerPieces(c), "", 1);
    JoinContains(ServerPieces(c), "", 3);
    JoinContains(ServerPieces(c), "", 5);
    JoinContains(ServerPieces(c), "", 7);
    JoinContains(ServerPieces(c), "", 9);
  }

  /** An empty profile gets every default, and the company reads `undefined`. */
  lemma ServerPromptDefaults(c: ServerConfig)
    requires c == ServerConfig(None, None, None, None)
    ensures Contains(BuildServerPrompt(c), DefaultSeller)
    ensures Contains(BuildServerPrompt(c), DefaultProducts)
    ensures Contains(BuildServerPrompt(c), DefaultPricing)
    ensures Contains(BuildServerPrompt(c), DefaultMinOrder)
    ensures Contains(BuildServerPrompt(c), Undefined)
  {
    ServerPromptUsesProfile(c);
  }

  /** Every product of the profile is named in the prompt. */
  lemma ProductInPrompt(c: ServerConfig, j: nat)
    requires c.products.Some? && j < |c.products.value|
    ensures Contains(BuildServerPrompt(c), c.products.value[j])
  {
    ServerPromptUsesProfile(c);
    ContainsTrans(BuildServerPrompt(c), ProductsText(c.products), c.products.value[j]);
  }

  // ---------------------------------------------------------------------
  // What the speech model's socket relays to the test screen
  // ---------------------------------------------------------------------

  /** One item of an output's `content` array. */
  datatype Content = Content(contentType: string, text: string)

  /** One item of `response.output`; `content` may be missing. */
  datatype Output = Output(outputType: string, content: Option<seq<Content>>)

  /** An event the speech model's socket delivers, after `JSON.parse`; audio already decoded. */
  datatype ServerAiEvent =
    | TranscriptionCompleted(transcript: string)
    | ResponseDone(output: Option<seq<Output>>)
    | AudioDelta(delta: seq<byte>)
    | OtherServerEvent(eventType: string)

  /** An event emitted to the test screen; the timestamp is the clock reading passed in. */
  datatype ClientEvent =
    | UserMessage(text: string, timestamp: int)
    | AgentMessage(text: string, timestamp: int)
    | AgentAudio(wav: seq<byte>, timestamp: int)

  /** The texts of the `text` items of a content array, in order. */
  function ContentTexts(cs: seq<Content>): seq<string>
    decreases |cs|
  {
    if cs == [] then []
    else (if cs[0].contentType == "text" then [cs[0].text] else []) + ContentTexts(cs[1..])
  }

  /** The texts one output contributes: only a `message` output with content has any. */
  function OutputTexts(o: Output): seq<string> {
    if o.outputType == "message" && o.content.Some? then ContentTexts(o.content.value) else []
  }

  /** The texts of all outputs, output by output. */
  function AgentTexts(os: seq<Output>): seq<string>
    decreases |os|
  {
    if os == [] then [] else OutputTexts(os[0]) + AgentTexts(os[1..])
  }

  /** One `agent-message` per text, all stamped with the same clock reading. */
  function AgentMessages(texts: seq<string>, now: int): (r: seq<ClientEvent>)
    ensures |r| == |texts|
    ensures forall k :: 0 <= k < |r| ==> r[k] == AgentMessage(texts[k], now)
  {
    seq(|texts|, k requires 0 <= k < |texts| => AgentMessage(texts[k], now))
  }

  /** Content item `j` of output `i` is a `text` item of a `message` output. */
  predicate Relayed(os: seq<Output>, i: int, j: int) {
    && 0 <= i < |os|
    && os[i].outputType == "message"
    && os[i].content.Some?
    && 0 <= j < |os[i].content.value|
    && os[i].content.value[j].contentType == "text"
  }

  lemma {:induction false} ContentTextsAppend(a: seq<Content>, b: seq<Content>)
    ensures ContentTexts(a + b) == ContentTexts(a) + ContentTexts(b)
    decreases |a|
  {
    if a == [] {
      assert a + b == b;
    } else {
      assert (a + b)[1..] == a[1..] + b;
      ContentTextsAppend(a[1..], b);
    }
  }

  /** The texts of a concatenation of outputs are the texts of each part, in order. */
  lemma {:induction false} AgentTextsAppend(a: seq<Output>, b: seq<Output>)
    ensures AgentTexts(a + b) == AgentTexts(a) + AgentTexts(b)
    decreases |a|
  {
    if a == [] {
      assert a + b == b;
    } else {
      assert (a + b)[1..] == a[1..] + b;
      AgentTextsAppend(a[1..], b);
    }
  }

  lemma {:induction false} ContentTextsMember(cs: seq<Content>, t: string)
    ensures t in ContentTexts(cs) <==> exists j :: 0 <= j < |cs| && cs[j].contentType == "text" && cs[j].text == t
    decreases |cs|
  {
    if cs != [] {
      ContentTextsMember(cs[1..], t);
      if t in ContentTexts(cs[1..]) {
        var j :| 0 <= j < |cs[1..]| && cs[1..][j].contentType == "text" && cs[1..][j].text == t;
        assert cs[j + 1] == cs[1..][j];
      }
      if exists j :: 0 <= j < |cs| && cs[j].contentType == "text" && cs[j].text == t {
        var j :| 0 <= j < |cs| && cs[j].contentType == "text" && cs[j].text == t;
        if j > 0 {
          assert cs[1..][j - 1] == cs[j];
        }
      }
    }
  }

  /**
   * A text is relayed exactly when it is the text of a `text` item of a
   * `message` output; nothing else is.
   */
  lemma {:induction false} AgentTextsMember(os: seq<Output>, t: string)
    ensures t in AgentTexts(os) <==> exists i, j :: Relayed(os, i, j) && os[i].content.value[j].text == t
    decreases |os|
  {
    if os != [] {
      AgentTextsMember(os[1..], t);
      var o := os[0];
      if o.outputType == "message" && o.content.Some? {
        ContentTextsMember(o.content.value, t);
      }
      if t in AgentTexts(os) {
        if t in OutputTexts(o) {
          var j :| 0 <= j < |o.content.value| && o.content.value[j].contentType == "text" && o.content.value[j].text == t;
          assert Relayed(os, 0, j);
        } else {
          var i, j :| Relayed(os[1..], i, j) && os[1..][i].content.value[j].text == t;
          assert os[i + 1] == os[1..][i];
          assert Relayed(os, i + 1, j);
        }
      }
      if exists i, j :: Relayed(os, i, j) && os[i].content.value[j].text == t {
        var i, j :| Relayed(os, i, j) && os[i].content.value[j].text == t;
        if i == 0 {
          assert t in OutputTexts(o);
        } else {
          assert os[1..][i - 1] == os[i];
          assert Relayed(os[1..], i - 1, j);
        }
      }
    }
  }

  /** Messages for two lists of texts, one after the other, are the messages of the joined list. */
  lemma AgentMessagesAppend(a: seq<string>, b: seq<string>, now: int)
    ensures AgentMessages(a + b, now) == AgentMessages(a, now) + AgentMessages(b, now)
  {
    var l, r := AgentMessages(a + b, now), AgentMessages(a, now) + AgentMessages(b, now);
    assert |l| == |r|;
    forall k | 0 <= k < |l|
      ensures l[k] == r[k]
    {
      if k < |a| {
        assert (a + b)[k] == a[k];
      } else {
        assert (a + b)[k] == b[k - |a|];
      }
    }
  }

  /** The inner loop of the walk: one `agent-message` per `text` item of a content array. */
  method CollectContentMessages(cs: seq<Content>, now: int) returns (emitted: seq<ClientEvent>)
    ensures emitted == AgentMessages(ContentTexts(cs), now)
  {
    emitted := [];
    var j := 0;
    while j < |cs|
      invariant 0 <= j <= |cs|
      invariant emitted == AgentMessages(ContentTexts(cs[..j]), now)
    {
      var texts := if cs[j].contentType == "text" then [cs[j].text] else [];
      if cs[j].contentType == "text" {
        emitted := emitted + [AgentMessage(cs[j].text, now)];
      }
      assert cs[..j + 1] == cs[..j] + [cs[j]];
      ContentTextsAppend(cs[..j], [cs[j]]);
      assert ContentTexts([cs[j]]) == texts by {
        assert [cs[j]][1..] == [];
      }
      AgentMessagesAppend(ContentTexts(cs[..j]), texts, now);
      j := j + 1;
    }
    assert cs[..j] == cs;
  }

  /**
   * The `response.done` walk: for each output of type `message` that has
   * content, for each content item of type `text`, one `agent-message`.
   */
  method CollectAgentMessages(output: Option<seq<Output>>, now: int) returns (emitted: seq<ClientEvent>)
    ensures output.None? ==> emitted == []
    ensures output.Some? ==> emitted == AgentMessages(AgentTexts(output.value), now)
  {
    emitted := [];
    if output.None? {
      return;
    }
    var os := output.value;
    var i := 0;
    while i < |os|
      invariant 0 <= i <= |os|
      invariant emitted == AgentMessages(AgentTexts(os[..i]), now)
    {
      var o := os[i];
      if o.outputType == "message" && o.content.Some? {
        var more := CollectContentMessages(o.content.value, now);
        emitted := emitted + more;
      }
      assert os[..i + 1] == os[..i] + [o];
      AgentTextsAppend(os[..i], [o]);
      assert AgentTexts([o]) == OutputTexts(o) by {
        assert [o][1..] == [];
      }
      AgentMessagesAppend(AgentTexts(os[..i]), OutputTexts(o), now);
      i := i + 1;
    }
    assert os[..i] == os;
  }

  /** The sample rate and channel count the server wraps model audio with. */
  const RelaySampleRate := 24000
  const RelayChannels := 1

  /**
   * One event of the speech model's socket: a finished input transcription
   * becomes a `user-message`, a finished response its `agent-message`s, a
   * non-empty audio delta an `agent-audio` WAV (nothing when the header
   * write throws: the handler's `catch` swallows it); anything else nothing.
   */
  method OnUpstreamEvent(ev: ServerAiEvent, now: int) returns (emitted: seq<ClientEvent>)
    ensures ev.TranscriptionCompleted? ==> emitted == [UserMessage(ev.transcript, now)]
    ensures ev.ResponseDone? ==>
      emitted == (if ev.output.Some? then AgentMessages(AgentTexts(ev.output.value), now) else [])
    ensures ev.AudioDelta? ==>
      && (emitted != [] <==> ev.delta != [] && 36 + |ev.delta| < UInt32Limit)
      && (emitted != [] ==>
            && emitted == [AgentAudio(WavFile(ev.delta, RelaySampleRate, RelayChannels).value, now)]
            && |emitted[0].wav| == HeaderSize + |ev.delta|
            && emitted[0].wav[HeaderSize..] == ev.delta)
    ensures ev.OtherServerEvent? ==> emitted == []
  {
    match ev
    case TranscriptionCompleted(t) =>
      emitted := [UserMessage(t, now)];
    case ResponseDone(output) =>
      emitted := CollectAgentMessages(output, now);
    case AudioDelta(delta) =>
      emitted := [];
      if delta != [] {
        var wav := Pcm16ToWav(delta, RelaySampleRate, RelayChannels);
        if wav.Success? {
          emitted := [AgentAudio(wav.value, now)];
          WavLayout(delta, RelaySampleRate, RelayChannels);
        }
      }
    case OtherServerEvent(_) =>
      emitted := [];
  }

  // ---------------------------------------------------------------------
  // `send-audio`
  // ---------------------------------------------------------------------

  /** The payload of a `send-audio` message: the fields a sender may set. */
  datatype SendAudioPayload = SendAudioPayload(
    sessionId: Option<string>,
    audioData: Option<string>,
    audioBase64: Option<string>)

  /** A message to the speech model's socket; an audio of `None` is a message without the key. */
  datatype UpstreamMessage =
    | AppendInputAudio(audio: Option<string>)
    | CommitInputAudio
    | CreateResponse(modalities: seq<string>)

  /** What `send-audio` does: send now, or arm the commit timer. */
  datatype SendAudioAction =
    | SendUpstream(msg: UpstreamMessage)
    | ScheduleCommit(delayMs: nat)

  const CommitDelay: nat := 500

  /** What the commit timer sends when it fires: commit the buffer, then ask for a text and audio response. */
  const CommitMessages := [CommitInputAudio, CreateResponse(["text", "audio"])]

  /**
   * `send-audio` as written: nothing at all unless the speech model's socket
   * exists and is open; otherwise append the payload's `audioData` and arm
   * the commit timer.
   */
  function SendAudio(upstream: Option<nat>, data: SendAudioPayload): (r: seq<SendAudioAction>)
    ensures r == [] <==> upstream != Some(MediaStream.Open)
    ensures r != [] ==> |r| == 2 && r[0].SendUpstream? && r[0].msg.AppendInputAudio?
                        && r[0].msg.audio == data.audioData && r[1] == ScheduleCommit(CommitDelay)
  {
    if upstream == Some(MediaStream.Open) then
      [SendUpstream(AppendInputAudio(data.audioData)), ScheduleCommit(CommitDelay)]
    else []
  }

  /** `send-audio` reading the field the test screen actually sends, `audioBase64`. */
  function SendAudioCorrected(upstream: Option<nat>, data: SendAudioPayload): (r: seq<SendAudioAction>)
    ensures r == [] <==> upstream != Some(MediaStream.Open)
    ensures r != [] ==> |r| == 2 && r[0].SendUpstream? && r[0].msg.AppendInputAudio?
                        && r[0].msg.audio == data.audioBase64 && r[1] == ScheduleCommit(CommitDelay)
  {
    if upstream == Some(MediaStream.Open) then
      [SendUpstream(AppendInputAudio(data.audioBase64)), ScheduleCommit(CommitDelay)]
    else []
  }
}
