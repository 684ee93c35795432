/**
 * The generation service: it turns a tagged input, a tone and a language into
 * one request for the hosted model (system instruction, user contents and a
 * fixed output configuration), and reduces the endpoint's answer to a list of
 * candidates, an empty list, or one opaque failure.
 *
 * The endpoint and `JSON.parse` are not modelled; they are function parameters
 * (`endpoint`, `parse`) whose results stand for whatever they return.
 */
module GeminiService {
  import opened Wrappers
  import opened Types
  import opened JsString

  // ---------------------------------------------------------------------------
  // Requests
  // ---------------------------------------------------------------------------

  /**
   * What the form hands to the service. The program's untyped record
   * `{type, content, mimeType?}` becomes one variant per `type`. An image's
   * `content` may be absent (`undefined`) and so may its `mimeType`.
   */
  datatype GenerationInput =
    | Text(content: string)
    | Similar(content: string)
    | Image(data: Option<string>, mimeType: Option<string>)

  /** One element of a multimodal message. */
  datatype Part =
    | InlineData(mimeType: string, data: Option<string>)
    | TextPart(text: string)

  /** The `contents` of a call: a plain prompt string, or `{parts: [...]}`. */
  datatype Contents = Prompt(text: string) | Parts(parts: seq<Part>)

  /** The JSON schema of the reply: an array of objects with these required string fields. */
  datatype ResponseSchema = ArrayOfObjects(required: seq<string>)

  /** Everything passed to `generateContent`. */
  datatype Request = Request(
    model: string,
    contents: Contents,
    systemInstruction: string,
    responseMimeType: string,
    responseSchema: ResponseSchema,
    temperature: real)

  const ModelName := "gemini-2.5-flash"
  const JsonMimeType := "application/json"
  const NameResponseSchema := ArrayOfObjects(["name", "tagline", "description"])
  const ProgramTemperature: real := 0.8
  const RelatedTemperature: real := 0.85
  const DefaultImageMimeType := "image/png"

  /** The wording every instruction uses to ask for six names. */
  const CountPhrase := "generate 6 "

  /** The language named in the prompts: Turkish for `tr`, English otherwise. */
  function PromptLanguage(language: Language): (r: string)
    ensures r == "Turkish" <==> language == Tr
    ensures r == "English" <==> language != Tr
  {
    if language == Tr then "Turkish" else "English"
  }

  function ToneLine(tone: Tone): string {
    "Tone: " + ToneName(tone)
  }

  function LanguageLine(promptLanguage: string): string {
    "Output Language: " + promptLanguage
  }

  function Quoted(s: string): string {
    "\"" + s + "\""
  }

  // The fixed wording of the instructions, split where a value is spliced in.
  const Indent6 := "\n      "
  const Close6 := "\n    "
  const Indent4 := "\n    "
  const Close4 := "\n  "
  const RuleHead := " (The 'name' can be English or abstract"
  const RuleIfSuitable := " if suitable"
  const RuleMid := ", but 'tagline' and 'description' MUST be in "
  const RuleEnd := ")."
  const TextIntro :=
    "\n      You are an expert naming consultant for software, startups, and tech projects."
    + "\n      Your goal is to "
  const TextGoal := "unique, catchy, and relevant names based on the user's project description.\n      \n      "
  const TextOutro :=
    "\n      \n      Ensure the names are diverse (some compound words, some abstract, some descriptive)."
  const SimilarIntro := "\n      You are an expert naming consultant.\n      The user likes the name "
  const SimilarGoalHead := ".\n      \n      Your goal is to "
  const SimilarGoal := "NEW names that are similar in style, phonetics, theme, or complexity to "
  const SimilarFamous :=
    ".\n      If the user provided name is famous (e.g. Spotify, Slack), analyze its brand vibes"
    + " and generate similar quality names for a hypothetical product.\n      \n      "
  const ImageIntro :=
    "\n      You are an expert naming consultant for brands and software."
    + "\n      Analyze the provided image (Logo or visual identity)."
    + "\n      Identify the core shapes, colors, mood, and abstract concepts represented in the visual."
    + "\n      \n      Based on this visual analysis, "
  const ImageGoal := "creative names that fit the visual identity.\n      \n      "
  const RelatedIntro :=
    "\n    You are an expert naming consultant."
    + "\n    The user has generated a list of names for a software project and specifically LIKED the name "
  const RelatedGoalHead := ".\n    \n    Your goal is to "
  const RelatedContextHead := ".\n    \n    "

  /** The rule that the prose fields, not necessarily the name, use the output language. */
  function LanguageRule(promptLanguage: string, ifSuitable: bool): string {
    RuleHead + (if ifSuitable then RuleIfSuitable else "") + RuleMid + promptLanguage + RuleEnd
  }

  /**
   * System instruction for a project description. It carries the rule that
   * the tagline and description are in the output language while the name,
   * if suitable, need not be.
   */
  function TextInstruction(tone: Tone, promptLanguage: string): (r: string)
    ensures IsInfix(LanguageRule(promptLanguage, true), r)
  {
    var pieces := [TextIntro, CountPhrase, TextGoal, ToneLine(tone), Indent6, LanguageLine(promptLanguage),
                   LanguageRule(promptLanguage, true), TextOutro, Close6];
    PieceOccurs(pieces, 6);
    Concat(pieces)
  }

  /**
   * System instruction for a reference name the user likes. It asks for new
   * names similar to the quoted name and carries the output-language rule.
   */
  function SimilarInstruction(name: string, tone: Tone, promptLanguage: string): (r: string)
    ensures IsInfix(SimilarGoal + Quoted(name), r)
    ensures IsInfix(LanguageRule(promptLanguage, false), r)
  {
    var pieces := [SimilarIntro, Quoted(name), SimilarGoalHead, CountPhrase, SimilarGoal + Quoted(name), SimilarFamous,
                   ToneLine(tone), Indent6, LanguageLine(promptLanguage), LanguageRule(promptLanguage, false), Close6];
    PieceOccurs(pieces, 4);
    PieceOccurs(pieces, 9);
    Concat(pieces)
  }

  /**
   * System instruction for a logo or other image. It asks the model to
   * analyze the image and carries the output-language rule.
   */
  function ImageInstruction(tone: Tone, promptLanguage: string): (r: string)
    ensures IsInfix(ImageIntro, r)
    ensures IsInfix(LanguageRule(promptLanguage, false), r)
  {
    var pieces := [ImageIntro, CountPhrase, ImageGoal, ToneLine(tone), Indent6, LanguageLine(promptLanguage),
                   LanguageRule(promptLanguage, false), Close6];
    PieceOccurs(pieces, 0);
    PieceOccurs(pieces, 6);
    Concat(pieces)
  }

  /**
   * System instruction for "more like this". It asks for new names similar
   * to the quoted liked name.
   */
  function RelatedInstruction(referenceName: string, description: string, tone: Tone, promptLanguage: string): (r: string)
    ensures IsInfix(SimilarGoal + Quoted(referenceName), r)
  {
    var pieces := [RelatedIntro, Quoted(referenceName), RelatedGoalHead, CountPhrase, SimilarGoal + Quoted(referenceName),
                   RelatedContextHead, ProjectContextLine(description), Indent4, ToneLine(tone),
                   Indent4, LanguageLine(promptLanguage), Close4];
    PieceOccurs(pieces, 4);
    Concat(pieces)
  }

  /** `input.mimeType || 'image/png'`: an absent or empty MIME type falls back to PNG. */
  function EffectiveMimeType(mimeType: Option<string>): (r: string)
    ensures r != ""
    ensures mimeType.Some? && mimeType.value != "" ==> r == mimeType.value
    ensures mimeType.None? || mimeType.value == "" ==> r == DefaultImageMimeType
  {
    if mimeType.Some? && Truthy(mimeType.value) then mimeType.value else DefaultImageMimeType
  }

  const TextPromptPrefix := "Project Description: "
  const ImagePromptHead := "Generate 6 program names that match this logo/visual style. "
  const RelatedPromptHead := "Generate 6 names similar to "
  const RelatedPromptMid := " for the project described as: "

  /** The request `generateProgramNames` sends for one input. */
  function BuildProgramRequest(input: GenerationInput, tone: Tone, language: Language): (r: Request)
    ensures r.model == ModelName
    ensures r.responseMimeType == JsonMimeType && r.responseSchema == NameResponseSchema
    ensures r.temperature == ProgramTemperature
  {
    var promptLanguage := PromptLanguage(language);
    match input
    case Text(content) =>
      Request(ModelName, Prompt(TextPromptPrefix + content),
              TextInstruction(tone, promptLanguage),
              JsonMimeType, NameResponseSchema, ProgramTemperature)
    case Similar(content) =>
      Request(ModelName, Prompt("Generate 6 names similar in vibe to " + Quoted(content) + "."),
              SimilarInstruction(content, tone, promptLanguage),
              JsonMimeType, NameResponseSchema, ProgramTemperature)
    case Image(data, mimeType) =>
      var parts := [
        InlineData(EffectiveMimeType(mimeType), data),
        TextPart(Concat([ImagePromptHead, ToneLine(tone), "."]))
      ];
      Request(ModelName, Parts(parts),
              ImageInstruction(tone, promptLanguage),
              JsonMimeType, NameResponseSchema, ProgramTemperature)
  }

  /** The request `generateRelatedNames` sends for "more like this". */
  function BuildRelatedRequest(referenceName: string, description: string, tone: Tone, language: Language): (r: Request)
    ensures r.model == ModelName
    ensures r.responseMimeType == JsonMimeType && r.responseSchema == NameResponseSchema
    ensures r.temperature == RelatedTemperature
  {
    var promptLanguage := PromptLanguage(language);
    var instruction := RelatedInstruction(referenceName, description, tone, promptLanguage);
    var prompt := Concat([RelatedPromptHead, Quoted(referenceName), RelatedPromptMid, description]);
    Request(ModelName, Prompt(prompt), instruction, JsonMimeType, NameResponseSchema, RelatedTemperature)
  }

  function ProjectContextLine(description: string): string {
    "Project Context: " + description
  }

  // ---------------------------------------------------------------------------
  // Replies
  // ---------------------------------------------------------------------------

  /** What the endpoint call does: throw, or return a response whose `text` may be absent. */
  datatype Reply = Threw | Responded(text: Option<string>)

  /** What `JSON.parse(text) as GeneratedName[]` does: throw, or yield a value (never checked). */
  datatype ParseOutcome = ParseFailed | Parsed(value: seq<GeneratedName>)

  /** How a service call settles: a resolved list, or a rejection with an `Error` message. */
  datatype Outcome = Names(names: seq<GeneratedName>) | Failed(message: string)

  const ProgramFailure := "Failed to generate names"
  const RelatedFailure := "Failed to generate related names"

  /**
   * The `if (response.text) ... return []` block inside `try`, and the `catch`
   * that rethrows one fixed error.
   */
  function HandleReply(reply: Reply, parse: string -> ParseOutcome, failure: string): (r: Outcome)
    // a non-empty reply text yields its parse, unchanged
    ensures reply.Responded? && reply.text.Some? && reply.text.value != "" && parse(reply.text.value).Parsed?
            ==> r == Names(parse(reply.text.value).value)
    // an empty or absent reply text is the empty list, not an error
    ensures reply.Responded? && (reply.text.None? || reply.text.value == "") ==> r == Names([])
    // a thrown call or a failed parse becomes the single fixed failure, never a list
    ensures reply.Threw? ==> r == Failed(failure)
    ensures reply.Responded? && reply.text.Some? && reply.text.value != "" && parse(reply.text.value).ParseFailed?
            ==> r == Failed(failure)
  {
    match reply
    case Threw => Failed(failure)
    case Responded(text) =>
      if text.Some? && Truthy(text.value) then
        match parse(text.value)
        case Parsed(names) => Names(names)
        case ParseFailed => Failed(failure)
      else
        Names([])
  }

  /** `generateProgramNames`: build the request, call the endpoint once, handle the reply. */
  function GenerateProgramNames(
    input: GenerationInput, tone: Tone, language: Language,
    endpoint: Request -> Reply, parse: string -> ParseOutcome): (r: Outcome)
    ensures r.Failed? ==> r.message == ProgramFailure
  {
    HandleReply(endpoint(BuildProgramRequest(input, tone, language)), parse, ProgramFailure)
  }

  /** `generateRelatedNames`: the same one call, for the related-names request. */
  function GenerateRelatedNames(
    referenceName: string, description: string, tone: Tone, language: Language,
    endpoint: Request -> Reply, parse: string -> ParseOutcome): (r: Outcome)
    ensures r.Failed? ==> r.message == RelatedFailure
  {
    HandleReply(endpoint(BuildRelatedRequest(referenceName, description, tone, language)), parse, RelatedFailure)
  }

  // ---------------------------------------------------------------------------
  // What the requests say
  // ---------------------------------------------------------------------------

  /** Every program instruction names the tone and the output language and asks for six names. */
  lemma ProgramInstructionMentions(input: GenerationInput, tone: Tone, language: Language)
    ensures var instruction := BuildProgramRequest(input, tone, language).systemInstruction;
      && IsInfix(ToneLine(tone), instruction)
      && IsInfix(LanguageLine(PromptLanguage(language)), instruction)
      && IsInfix(CountPhrase, instruction)
  {
    var lang := PromptLanguage(language);
    match input
    case Text(_) => TextInstructionMentions(tone, lang);
    case Similar(name) => SimilarInstructionMentions(name, tone, lang);
    case Image(_, _) => ImageInstructionMentions(tone, lang);
  }

  lemma TextInstructionMentions(tone: Tone, lang: string)
    ensures var instruction := TextInstruction(tone, lang);
      IsInfix(ToneLine(tone), instruction) && IsInfix(LanguageLine(lang), instruction) && IsInfix(CountPhrase, instruction)
  {
    var pieces := [TextIntro, CountPhrase, TextGoal, ToneLine(tone), Indent6, LanguageLine(lang),
                   LanguageRule(lang, true), TextOutro, Close6];
    PieceOccurs(pieces, 1);
    PieceOccurs(pieces, 3);
    PieceOccurs(pieces, 5);
  }

  lemma SimilarInstructionMentions(name: string, tone: Tone, lang: string)
    ensures var instruction := SimilarInstruction(name, tone, lang);
      IsInfix(ToneLine(tone), instruction) && IsInfix(LanguageLine(lang), instruction) && IsInfix(CountPhrase, instruction)
  {
    var pieces := [SimilarIntro, Quoted(name), SimilarGoalHead, CountPhrase, SimilarGoal + Quoted(name),
                   SimilarFamous, ToneLine(tone), Indent6, LanguageLine(lang), LanguageRule(lang, false), Close6];
    PieceOccurs(pieces, 3);
    PieceOccurs(pieces, 6);
    PieceOccurs(pieces, 8);
  }

  lemma ImageInstructionMentions(tone: Tone, lang: string)
    ensures var instruction := ImageInstruction(tone, lang);
      IsInfix(ToneLine(tone), instruction) && IsInfix(LanguageLine(lang), instruction) && IsInfix(CountPhrase, instruction)
  {
    var pieces := [ImageIntro, CountPhrase, ImageGoal, ToneLine(tone), Indent6, LanguageLine(lang),
                   LanguageRule(lang, false), Close6];
    PieceOccurs(pieces, 1);
    PieceOccurs(pieces, 3);
    PieceOccurs(pieces, 5);
  }

  /** A description is sent as `Project Description: ` followed by the description, unchanged. */
  lemma TextPayload(content: string, tone: Tone, language: Language)
    ensures var contents := BuildProgramRequest(Text(content), tone, language).contents;
      && contents.Prompt?
      && contents.text[..|TextPromptPrefix|] == TextPromptPrefix
      && contents.text[|TextPromptPrefix|..] == content
  {
  }

  /**
   * A reference name is quoted in the instruction, and the prompt asks for six
   * names similar in vibe to the quoted name.
   */
  lemma SimilarPayload(name: string, tone: Tone, language: Language)
    ensures var r := BuildProgramRequest(Similar(name), tone, language);
      && IsInfix(Quoted(name), r.systemInstruction)
      && r.contents == Prompt("Generate 6 names similar in vibe to " + Quoted(name) + ".")
  {
    var lang := PromptLanguage(language);
    PieceOccurs([SimilarIntro, Quoted(name), SimilarGoalHead, CountPhrase, SimilarGoal + Quoted(name),
                 SimilarFamous, ToneLine(tone), Indent6, LanguageLine(lang), LanguageRule(lang, false), Close6], 1);
  }

  /**
   * An image is sent as exactly two parts: the inline data, unchanged, with
   * the effective MIME type, then a text part naming the tone.
   */
  lemma ImagePayload(data: Option<string>, mimeType: Option<string>, tone: Tone, language: Language)
    ensures var contents := BuildProgramRequest(Image(data, mimeType), tone, language).contents;
      && contents.Parts?
      && |contents.parts| == 2
      && contents.parts[0] == InlineData(EffectiveMimeType(mimeType), data)
      && contents.parts[0].mimeType != ""
      && contents.parts[1].TextPart?
      && IsInfix(ToneLine(tone), contents.parts[1].text)
  {
    PieceOccurs([ImagePromptHead, ToneLine(tone), "."], 1);
  }

  /**
   * The related-names instruction quotes the liked name, gives the project
   * context, the tone and the output language, and asks for six names; the
   * prompt quotes the liked name and ends with the description verbatim.
   */
  lemma RelatedRequestMentions(referenceName: string, description: string, tone: Tone, language: Language)
    ensures var r := BuildRelatedRequest(referenceName, description, tone, language);
      && IsInfix(Quoted(referenceName), r.systemInstruction)
      && IsInfix(ProjectContextLine(description), r.systemInstruction)
      && IsInfix(ToneLine(tone), r.systemInstruction)
      && IsInfix(LanguageLine(PromptLanguage(language)), r.systemInstruction)
      && IsInfix(CountPhrase, r.systemInstruction)
      && r.contents.Prompt?
      && IsInfix(Quoted(referenceName), r.contents.text)
      && IsSuffix(description, r.contents.text)
  {
    var q := Quoted(referenceName);
    var pieces := [RelatedIntro, q, RelatedGoalHead, CountPhrase, SimilarGoal + q,
                   RelatedContextHead, ProjectContextLine(description), Indent4, ToneLine(tone),
                   Indent4, LanguageLine(PromptLanguage(language)), Close4];
    PieceOccurs(pieces, 1);
    PieceOccurs(pieces, 3);
    PieceOccurs(pieces, 6);
    PieceOccurs(pieces, 8);
    PieceOccurs(pieces, 10);
    var prompt := [RelatedPromptHead, q, RelatedPromptMid, description];
    PieceOccurs(prompt, 1);
    LastPieceIsSuffix(prompt);
  }
}
