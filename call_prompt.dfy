/**
 * The instructions the call bridge gives the speech model
 * (`buildSystemPrompt` in vendedor-ia-mejorado.js). The command tags the
 * prompt teaches are the very constants the transcript dispatcher looks for.
 */
module CallPrompt {
  import opened Wrappers
  import opened Text
  import opened Detection

  /** The client profile fields the bridge reads (`data.config` of the profile row). */
  datatype CallConfig = CallConfig(agentName: Option<string>, companyName: Option<string>, pitch: Option<string>)

  /** `v || d` for a string field: a missing or empty value falls back to `d`. */
  function OrDefault(v: Option<string>, d: string): (r: string)
    ensures v.Some? && v.value != "" ==> r == v.value
    ensures v.None? || v.value == "" ==> r == d
  {
    if v.Some? && v.value != "" then v.value else d
  }

  const DefaultAgent := "Roberto"
  const DefaultCompany := "la empresa"
  const DefaultPitch := "Ofrecemos soluciones de calidad"

  /** The IVR rule's example command, and the fallback command. */
  const ExampleCommand := DtmfOpen + "2" + "]"
  const FallbackCommand := DtmfOpen + "0" + "]"

  const Rules := ".\n\nREGLAS CRÍTICAS:\n\n"
  const VoicemailRule := "1. BUZÓN DE VOZ:\n   Si escuchas \"buzón\", \"mensaje\", \"señal\", di: "
  const IvrRule := "\n\n2. IVR (MENÚS):\n   Si escuchas \"para compras marque 2\", responde: "
  const IvrFallback := "\n   Si no sabes qué marcar: "
  const HumanRule := "\n\n3. PERSONA REAL:\n   Si alguien dice \"bueno\", \"hola\", \"diga\", di: "
  const PitchLead := "\n   Luego presenta: \""
  const Closing :=
    "\"\n\n4. CAPTURA DE DATOS:\n   - Email: [EMAIL:texto]\n   - Teléfono: [PHONE:texto]\n   - Nombre: [NAME:texto]\n\n"
    + "5. Si nadie contesta en 10 seg: [TIMEOUT]\n\nHabla natural en español mexicano. Sé breve."

  /** The template's pieces in order; the prompt is their concatenation. */
  function Pieces(c: CallConfig): seq<string> {
    ["Eres ", OrDefault(c.agentName, DefaultAgent), ", vendedor de ", OrDefault(c.companyName, DefaultCompany),
     Rules, VoicemailRule, VoicemailTag, IvrRule, ExampleCommand, IvrFallback, FallbackCommand,
     HumanRule, HumanTag, PitchLead, OrDefault(c.pitch, DefaultPitch), Closing]
  }

  function BuildSystemPrompt(c: CallConfig): string {
    Join(Pieces(c), "")
  }

  /**
   * Whatever the profile says, the prompt teaches the voicemail and person
   * tags, and a DTMF tag the dispatcher recognises as a command.
   */
  lemma PromptTeachesRecognisedCommands(c: CallConfig)
    ensures Contains(BuildSystemPrompt(c), VoicemailTag)
    ensures Contains(BuildSystemPrompt(c), HumanTag)
    ensures Contains(BuildSystemPrompt(c), ExampleCommand)
    ensures DtmfCommand(BuildSystemPrompt(c)).Some?
  {
    JoinContains(Pieces(c), "", 6);
    JoinContains(Pieces(c), "", 12);
    JoinContains(Pieces(c), "", 8);
    DtmfCommandComplete(BuildSystemPrompt(c), "2");
  }

  /** The agent's name, the company and the pitch from the profile, or their defaults, appear in the prompt. */
  lemma PromptUsesProfile(c: CallConfig)
    ensures Contains(BuildSystemPrompt(c), OrDefault(c.agentName, DefaultAgent))
    ensures Contains(BuildSystemPrompt(c), OrDefault(c.companyName, DefaultCompany))
    ensures Contains(BuildSystemPrompt(c), OrDefault(c.pitch, DefaultPitch))
  {
    JoinContains(Pieces(c), "", 1);
    JoinContains(Pieces(c), "", 3);
    JoinContains(Pieces(c), "", 14);
  }

  /** A profile field that is empty behaves exactly like one that is missing. */
  lemma EmptyFieldsUseDefaults(c: CallConfig)
    requires c.agentName == Some("") && c.companyName == Some("") && c.pitch == Some("")
    ensures BuildSystemPrompt(c) == BuildSystemPrompt(CallConfig(None, None, None))
    ensures Contains(BuildSystemPrompt(c), DefaultAgent)
  {
    PromptUsesProfile(c);
  }
}
