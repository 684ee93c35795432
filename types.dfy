/** The value types shared by the form, the controller and the service. */
module Types {
  import opened Wrappers

  /** Interface language of the page and output language of the generated prose. */
  datatype Language = En | Tr

  /** Stylistic register requested from the model. */
  datatype Tone = Modern | Professional | Creative | Playful | Minimal

  /** The three tabs of the input form. */
  datatype InputMode = Description | Logo | Name

  /**
   * One candidate returned by the model. `domainAvailable` is an optional flag
   * the interface may carry; the service never sets it.
   */
  datatype GeneratedName = GeneratedName(
    name: string,
    tagline: string,
    description: string,
    domainAvailable: Option<bool>)

  /** The string literal a tone is in the program (`'modern'`, ...). */
  function ToneName(tone: Tone): (r: string)
    ensures r != ""
  {
    match tone
    case Modern => "modern"
    case Professional => "professional"
    case Creative => "creative"
    case Playful => "playful"
    case Minimal => "minimal"
  }

  /** Different tones are spelled differently, so a prompt names its tone unambiguously. */
  lemma ToneNameInjective(a: Tone, b: Tone)
    ensures ToneName(a) == ToneName(b) ==> a == b
  {
  }
}
