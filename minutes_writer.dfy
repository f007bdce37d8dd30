/** The minutes writer: which system prompt it uses, which request it sends
    and how a failed generation is reported. The language model and its
    parser are a function from the prompt and the request to the parsed
    minutes or an error. */
module MinutesWriter {
  import opened Wrappers
  import opened Text
  import opened MinutesTypes

  // ---------------------------------------------------------------------
  // Dispatch

  datatype Mode = Write | Revise

  /** `run`: the reviser when the critique is present, non-empty and not
      blank after stripping; the writer otherwise. */
  function RunMode(s: State): (m: Mode)
    ensures m == Revise <==> s.critique.Some? && !IsBlank(s.critique.value)
  {
    if s.critique.Some? && s.critique.value != "" && Strip(s.critique.value) != "" then Revise else Write
  }

  /** The prompt type `writer` and `revise` pass to `create_prompt`. */
  function ModeName(m: Mode): (name: string)
    ensures name == "write" <==> m == Write
  {
    match m
    case Write => "write"
    case Revise => "revise"
  }

  // ---------------------------------------------------------------------
  // System prompt

  const WriteExpertise: string := "creación de actas de reuniones"
  const ReviseExpertise: string := "revisión de actas de reuniones"
  const WritePurpose: string := "facilitar el proceso de generación de actas de reuniones de manera eficiente"
  const RevisePurpose: string := "mejorar las actas basándote en la crítica proporcionada"
  const NoInfoInstruction: string :=
    "Si no encuentras información en la transcripción, simplemente responde \"Información no proporcionada\" para cada caso."

  /** The parts of the system message that depend on the prompt type; the
      fixed wording around them is the same for every type. */
  datatype SystemPrompt = SystemPrompt(expertise: string, purpose: string, formatInstructions: string, noInfo: string)

  /** `get_system_message`: only the type "write" gets the writer's
      expertise and purpose and the instruction to answer "Información no
      proporcionada"; every other type gets the reviser's and no such
      instruction. */
  function GetSystemMessage(kind: string, formatInstructions: string): (p: SystemPrompt)
    ensures p.formatInstructions == formatInstructions
    ensures p.noInfo == NoInfoInstruction <==> kind == "write"
    ensures kind != "write" ==> p.noInfo == "" && p.expertise == ReviseExpertise && p.purpose == RevisePurpose
    ensures p.expertise == WriteExpertise <==> kind == "write"
  {
    if kind == "write" then SystemPrompt(WriteExpertise, WritePurpose, formatInstructions, NoInfoInstruction)
    else SystemPrompt(ReviseExpertise, RevisePurpose, formatInstructions, "")
  }

  /** The system message `run` ends up using. */
  function PromptFor(s: State, formatInstructions: string): SystemPrompt {
    GetSystemMessage(ModeName(RunMode(s)), formatInstructions)
  }

  /** The "Información no proporcionada" instruction is given exactly when
      there is no usable critique. */
  lemma PromptAsksForNoInfo(s: State, formatInstructions: string)
    ensures PromptFor(s, formatInstructions).noInfo == NoInfoInstruction
      <==> s.critique.None? || IsBlank(s.critique.value)
  {
  }

  // ---------------------------------------------------------------------
  // Request

  /** The human message `create_content` builds, by the values it embeds:
      the correction request carries the critique, the minutes to correct
      and the transcript; the initial one the transcript and the word
      count. */
  datatype Request =
    | Correction(today: string, critique: string, minutes: Minutes, transcript: string)
    | Initial(today: string, transcript: string, wordCount: int)

  /** `create_content`: the correction request when the critique is
      non-empty and there are minutes, the initial request otherwise. A key
      the chosen text needs and the state lacks raises `KeyError`. */
  function CreateContent(s: State, today: string): (r: Result<Request>)
    ensures r.Ok? && r.value.Correction? <==>
      s.critique.Some? && s.critique.value != "" && s.minutes.Some? && s.transcript.Some?
    ensures r.Ok? && r.value.Correction? ==>
      r.value == Correction(today, s.critique.value, s.minutes.value, s.transcript.value)
    ensures r.Ok? && r.value.Initial? ==>
      s.transcript.Some? && s.wordCount.Some? && r.value == Initial(today, s.transcript.value, s.wordCount.value)
    ensures r.Err? <==> (s.transcript.None? ||
      (s.wordCount.None? && !(s.critique.Some? && s.critique.value != "" && s.minutes.Some?)))
    ensures s.transcript.None? ==> r == Err("'transcript'")
    ensures r.Err? && s.transcript.Some? ==> r == Err("'wordCount'")
  {
    if s.critique.Some? && s.critique.value != "" && s.minutes.Some? then
      if s.transcript.None? then Err("'transcript'")
      else Ok(Correction(today, s.critique.value, s.minutes.value, s.transcript.value))
    else if s.transcript.None? then Err("'transcript'")
    else if s.wordCount.None? then Err("'wordCount'")
    else Ok(Initial(today, s.transcript.value, s.wordCount.value))
  }

  /** A critique of whitespace only, with minutes present: `run` picks the
      writer's prompt, yet the request is the correction one. */
  lemma BlankCritiqueMixesPrompts(s: State, today: string, formatInstructions: string)
    requires s.critique.Some? && s.critique.value != "" && IsBlank(s.critique.value)
    requires s.minutes.Some? && s.transcript.Some?
    ensures RunMode(s) == Write
    ensures PromptFor(s, formatInstructions).noInfo == NoInfoInstruction
    ensures CreateContent(s, today).Ok? && CreateContent(s, today).value.Correction?
  {
  }

  // ---------------------------------------------------------------------
  // Generation

  const GenerateError: string := "No se pudieron generar las actas: "

  /** `generate_minutes`: the request is built before the guarded call, so
      its `KeyError` passes through as it is; any failure of the model or
      the parser becomes the `ValueError` text with the failure appended. */
  function GenerateMinutes(s: State, today: string, prompt: SystemPrompt,
                           invoke: (SystemPrompt, Request) -> Result<Minutes>): (r: Result<Minutes>)
    ensures CreateContent(s, today).Err? ==> r == Err(CreateContent(s, today).error)
    ensures CreateContent(s, today).Ok? ==>
      var answer := invoke(prompt, CreateContent(s, today).value);
      (answer.Ok? ==> r == answer) && (answer.Err? ==> r == Err(GenerateError + answer.error))
  {
    match CreateContent(s, today)
    case Err(e) => Err(e)
    case Ok(request) =>
      match invoke(prompt, request)
      case Ok(minutes) => Ok(minutes)
      case Err(e) => Err(GenerateError + e)
  }

  /** `run`: generation with the prompt its dispatch picks. */
  function Run(s: State, today: string, formatInstructions: string,
               invoke: (SystemPrompt, Request) -> Result<Minutes>): (r: Result<Minutes>)
    ensures r.Ok? ==> (CreateContent(s, today).Ok?
      && invoke(PromptFor(s, formatInstructions), CreateContent(s, today).value) == r)
  {
    GenerateMinutes(s, today, PromptFor(s, formatInstructions), invoke)
  }
}
