/**
 * The page controller: the state `{results, isLoading, error, lastContext}`
 * and the two handlers that drive a generation, `handleGenerate` and
 * `handleMoreLikeThis`.
 *
 * Each handler is an `async` function. Its part before the `await` is
 * `Begin...`, its part after it is `Settle`; the `Handle...` methods run the
 * two in sequence around the service call.
 */
module App {
  import opened Wrappers
  import opened Types
  import opened JsString
  import opened GeminiService
  import InputForm

  /** What the last `handleGenerate` remembers: its description (text inputs only) and its tone. */
  datatype Context = Context(description: Option<string>, tone: Tone)

  const EnglishErrorMessage := "Something went wrong while communicating with the AI. Please try again."
  const TurkishErrorMessage := "Yapay zeka ile iletişim kurulurken bir hata oluştu. Lütfen tekrar deneyin."

  /** `UI_TEXT[language].errorMessage`. */
  function ErrorMessage(language: Language): (r: string)
    ensures r != ""
  {
    match language
    case En => EnglishErrorMessage
    case Tr => TurkishErrorMessage
  }

  /** The context `handleGenerate` records: the content is kept as description only for text. */
  function ContextOf(input: GenerationInput, tone: Tone): (r: Context)
    ensures r.tone == tone
    ensures r.description.Some? <==> input.Text?
    ensures input.Text? ==> r.description == Some(input.content)
  {
    if input.Text? then Context(Some(input.content), tone) else Context(None, tone)
  }

  /**
   * The description "more like this" makes up from the liked item alone: it
   * names the item and ends with the item's own description.
   */
  function SynthesizedDescription(item: GeneratedName): (r: string)
    ensures r != ""
    ensures IsInfix(item.name, r)
    ensures IsSuffix(item.description, r)
  {
    var pieces := ["A program named ", item.name, ": ", item.description];
    PieceOccurs(pieces, 1);
    LastPieceIsSuffix(pieces);
    Concat(pieces)
  }

  /**
   * `lastContext?.description || <synthesized>`: the recorded description
   * when there is a non-empty one, otherwise one made from the liked item.
   */
  function DescriptionContext(lastContext: Option<Context>, item: GeneratedName): (r: string)
    ensures lastContext.Some? && lastContext.value.description.Some? && lastContext.value.description.value != ""
            ==> r == lastContext.value.description.value
    ensures lastContext.None? || lastContext.value.description.None? || lastContext.value.description.value == ""
            ==> r == SynthesizedDescription(item)
    ensures r != ""
  {
    if lastContext.Some? && lastContext.value.description.Some? && Truthy(lastContext.value.description.value)
    then lastContext.value.description.value
    else SynthesizedDescription(item)
  }

  /** `lastContext?.tone || 'modern'`. */
  function ToneContext(lastContext: Option<Context>): (r: Tone)
    ensures lastContext.Some? ==> r == lastContext.value.tone
    ensures lastContext.None? ==> r == Modern
  {
    if lastContext.Some? then lastContext.value.tone else Modern
  }

  class AppState {
    var language: Language
    var results: seq<GeneratedName>
    var isLoading: bool
    var error: Option<string>
    var lastContext: Option<Context>

    /** An error message and a list of results are never shown together. */
    predicate ErrorHidesResults()
      reads this
    {
      error.Some? ==> results == []
    }

    constructor ()
      ensures language == En && results == [] && !isLoading && error == None && lastContext == None
      ensures ErrorHidesResults()
    {
      language := En;
      results := [];
      isLoading := false;
      error := None;
      lastContext := None;
    }

    /** The header's language toggle. */
    method SetLanguage(l: Language)
      modifies this`language
      ensures language == l
    {
      language := l;
    }

    /** `handleGenerate` up to its `await`: clear, start loading, record the context. */
    method BeginGenerate(input: GenerationInput, tone: Tone)
      modifies this`isLoading, this`error, this`results, this`lastContext
      ensures isLoading && error == None && results == []
      ensures lastContext == Some(ContextOf(input, tone))
    {
      isLoading := true;
      error := None;
      results := [];
      lastContext := Some(ContextOf(input, tone));
    }

    /** `handleMoreLikeThis` up to its `await`: clear and start loading; the context stays. */
    method BeginMoreLikeThis()
      modifies this`isLoading, this`error, this`results
      ensures isLoading && error == None && results == []
    {
      isLoading := true;
      error := None;
      results := [];
    }

    /**
     * Either handler after its `await`: the names become the results, or the
     * language's error message is shown and the results are left as they are;
     * loading stops either way.
     */
    method Settle(outcome: Outcome)
      modifies this`isLoading, this`error, this`results
      ensures outcome.Names? ==> results == outcome.names && error == old(error)
      ensures outcome.Failed? ==> results == old(results) && error == Some(ErrorMessage(language))
      ensures !isLoading
    {
      if outcome.Names? {
        results := outcome.names;
      } else {
        error := Some(ErrorMessage(language));
      }
      isLoading := false;
    }

    /** `handleGenerate`, with the service call completing before anything else happens. */
    method HandleGenerate(input: GenerationInput, tone: Tone, endpoint: Request -> Reply, parse: string -> ParseOutcome)
      modifies this`isLoading, this`error, this`results, this`lastContext
      ensures var outcome := GenerateProgramNames(input, tone, language, endpoint, parse);
        && (outcome.Names? ==> results == outcome.names && error == None)
        && (outcome.Failed? ==> results == [] && error == Some(ErrorMessage(language)))
      ensures lastContext == Some(ContextOf(input, tone))
      ensures !isLoading && ErrorHidesResults()
    {
      BeginGenerate(input, tone);
      var outcome := GenerateProgramNames(input, tone, language, endpoint, parse);
      Settle(outcome);
    }

    /**
     * `handleMoreLikeThis`, with the service call completing before anything
     * else happens: related names for the liked item's name, under the
     * recorded or synthesized description and the recorded or default tone.
     */
    method HandleMoreLikeThis(item: GeneratedName, endpoint: Request -> Reply, parse: string -> ParseOutcome)
      modifies this`isLoading, this`error, this`results
      ensures var outcome := GenerateRelatedNames(
          item.name, DescriptionContext(lastContext, item), ToneContext(lastContext), language, endpoint, parse);
        && (outcome.Names? ==> results == outcome.names && error == None)
        && (outcome.Failed? ==> results == [] && error == Some(ErrorMessage(language)))
      ensures lastContext == old(lastContext)
      ensures !isLoading && ErrorHidesResults()
    {
      BeginMoreLikeThis();
      var outcome := GenerateRelatedNames(
        item.name, DescriptionContext(lastContext, item), ToneContext(lastContext), language, endpoint, parse);
      Settle(outcome);
    }
  }

  /**
   * After a description submitted from the form, "more like this" grounds the
   * related request in that description, unchanged, and in the same tone:
   * the form never submits a blank description, so the synthesized fallback
   * is not used.
   */
  lemma MoreLikeThisAfterFormDescription(
    f: InputForm.FormFields, tone: Tone, fetch: InputForm.ImageFetch, item: GeneratedName)
    requires f.mode == Description && InputForm.Submit(f, tone, fetch).Generate?
    ensures var input := InputForm.Submit(f, tone, fetch).input;
      var context := Some(ContextOf(input, tone));
      && DescriptionContext(context, item) == f.description
      && ToneContext(context) == tone
  {
  }

  /**
   * After an image or a reference name, no description is recorded, so
   * "more like this" falls back to the synthesized one, in the same tone.
   */
  lemma MoreLikeThisAfterNonText(input: GenerationInput, tone: Tone, item: GeneratedName)
    requires !input.Text?
    ensures DescriptionContext(Some(ContextOf(input, tone)), item) == SynthesizedDescription(item)
    ensures ToneContext(Some(ContextOf(input, tone))) == tone
  {
  }
}
