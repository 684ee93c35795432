/**
 * The input form: the three image-source fields kept consistent by their
 * handlers, the README byte copy, the submit button's disabled test and the
 * payload `handleSubmit` builds from the current fields.
 *
 * Fetching the image URL, `FileReader` and `atob` / `TextDecoder` are not
 * modelled; their results are parameters.
 */
module InputForm {
  import opened Wrappers
  import opened Types
  import opened JsString
  import opened GeminiService

  /** A chosen file, as far as the form looks at it: its `type`. */
  datatype FileInfo = FileInfo(mimeType: string)

  /** The form fields that the submit button and `handleSubmit` read. */
  datatype FormFields = FormFields(
    mode: InputMode,
    description: string,
    nameInput: string,
    imageUrl: string,
    selectedFile: Option<FileInfo>,
    imagePreview: Option<string>)

  /**
   * Fetching `imageUrl` and reading the blob back as a data URL: either
   * something throws, or the blob's `type` and the reader's `result` are
   * obtained. A read that fails resolves with a `null` result (`None`).
   */
  datatype ImageFetch = FetchFailed | Fetched(blobType: string, dataUrl: Option<string>)

  /**
   * How a submit ends: nothing happens, the image-error alert is shown,
   * `split` is called on a `null` result and throws outside the `try` (no
   * alert and no payload; the handler's promise rejects), or `onGenerate` is
   * called with a payload and the selected tone.
   */
  datatype SubmitOutcome =
    | Rejected
    | ImageLoadFailed
    | SplitOnNull
    | Generate(input: GenerationInput, tone: Tone)

  const FormDefaultMimeType := "image/png"

  /** `!s.trim()`. */
  predicate Blank(s: string) {
    Trim(s) == ""
  }

  /** `imagePreview` is truthy: present and non-empty. */
  predicate HasPreview(preview: Option<string>) {
    preview.Some? && Truthy(preview.value)
  }

  /** `dataUrl.split(',')[1]`: the second comma-separated piece, `undefined` when there is none. */
  function DataPart(dataUrl: string): (r: Option<string>)
    ensures r.Some? ==> ',' !in r.value
  {
    var pieces := Split(dataUrl, ',');
    if |pieces| > 1 then Some(pieces[1]) else None
  }

  /**
   * For a data URL `<header>,<data>` as in section 3 of RFC 2397, whose
   * header and base64 data hold no comma, the data part is exactly the data.
   */
  lemma DataPartOfDataUrl(header: string, data: string)
    requires ',' !in header && ',' !in data
    ensures DataPart(header + "," + data) == Some(data)
  {
    SplitAtFirstSeparator(header, ',', data);
    SplitWithoutSeparator(data, ',');
  }

  /** The data part is absent exactly when the string has no comma. */
  lemma DataPartAbsentIffNoComma(dataUrl: string)
    ensures DataPart(dataUrl).None? <==> ',' !in dataUrl
  {
    SplitHasSecondPieceIffSeparator(dataUrl, ',');
  }

  /**
   * The `disabled` expression of the submit button. Loading disables it;
   * otherwise the current mode's field decides, and emptiness here is not
   * trimmed.
   */
  function SubmitDisabled(isLoading: bool, f: FormFields): (r: bool)
    ensures isLoading ==> r
    ensures !isLoading && f.mode == Description ==> (r <==> f.description == "")
    ensures !isLoading && f.mode == Name ==> (r <==> f.nameInput == "")
    ensures !isLoading && f.mode == Logo ==> (r <==> f.imagePreview.None? || f.imagePreview.value == "")
  {
    || isLoading
    || (f.mode == Description && !Truthy(f.description))
    || (f.mode == Name && !Truthy(f.nameInput))
    || (f.mode == Logo && !HasPreview(f.imagePreview))
  }

  /** `handleSubmit`: the payload built from the fields, or why none is sent. */
  function Submit(f: FormFields, tone: Tone, fetch: ImageFetch): (r: SubmitOutcome)
    ensures r.Generate? ==> r.tone == tone
    ensures r.Generate? && f.mode == Description ==> r.input == Text(f.description)
    ensures r.Generate? && f.mode == Name ==> r.input == Similar(f.nameInput)
    ensures r.Generate? && f.mode == Logo ==> r.input.Image? && r.input.mimeType.Some?
    ensures r.ImageLoadFailed? <==> f.mode == Logo && HasPreview(f.imagePreview) && f.imageUrl != "" && fetch.FetchFailed?
    ensures r.SplitOnNull? <==>
      f.mode == Logo && HasPreview(f.imagePreview) && f.imageUrl != "" && fetch.Fetched? && fetch.dataUrl.None?
  {
    match f.mode
    case Description =>
      if Blank(f.description) then Rejected else Generate(Text(f.description), tone)
    case Name =>
      if Blank(f.nameInput) then Rejected else Generate(Similar(f.nameInput), tone)
    case Logo =>
      if !HasPreview(f.imagePreview) then Rejected
      else if Truthy(f.imageUrl) then
        match fetch
        case FetchFailed => ImageLoadFailed
        case Fetched(blobType, dataUrl) =>
          if dataUrl.None? then SplitOnNull
          else Generate(Image(DataPart(dataUrl.value), Some(blobType)), tone)
      else
        var mimeType := if f.selectedFile.Some? then f.selectedFile.value.mimeType else FormDefaultMimeType;
        Generate(Image(DataPart(f.imagePreview.value), Some(mimeType)), tone)
  }

  /**
   * A submit sends nothing exactly when the current mode's field is blank:
   * all whitespace for a description or a name, no preview for a logo.
   */
  lemma SubmitRejectsExactlyBlank(f: FormFields, tone: Tone, fetch: ImageFetch)
    ensures f.mode == Description ==> (Submit(f, tone, fetch).Rejected? <==> AllWhitespace(f.description))
    ensures f.mode == Name ==> (Submit(f, tone, fetch).Rejected? <==> AllWhitespace(f.nameInput))
    ensures f.mode == Logo ==> (Submit(f, tone, fetch).Rejected? <==> !HasPreview(f.imagePreview))
  {
    match f.mode
    case Description => TrimEmptyIffAllWhitespace(f.description);
    case Name => TrimEmptyIffAllWhitespace(f.nameInput);
    case Logo =>
  }

  /**
   * The logo's MIME type is the fetched blob's when a URL is set, otherwise
   * the chosen file's, otherwise PNG; its data is the data part of the
   * fetched data URL, or of the preview. A fetched blob read back as `null`
   * makes the `split` throw, so nothing is sent.
   */
  lemma SubmitImageSource(f: FormFields, tone: Tone, fetch: ImageFetch)
    requires f.mode == Logo && HasPreview(f.imagePreview)
    ensures f.imageUrl != "" && fetch.Fetched? && fetch.dataUrl.Some? ==>
      Submit(f, tone, fetch) == Generate(Image(DataPart(fetch.dataUrl.value), Some(fetch.blobType)), tone)
    ensures f.imageUrl != "" && fetch.Fetched? && fetch.dataUrl.None? ==> Submit(f, tone, fetch) == SplitOnNull
    ensures f.imageUrl == "" && f.selectedFile.Some? ==>
      Submit(f, tone, fetch) == Generate(Image(DataPart(f.imagePreview.value), Some(f.selectedFile.value.mimeType)), tone)
    ensures f.imageUrl == "" && f.selectedFile.None? ==>
      Submit(f, tone, fetch) == Generate(Image(DataPart(f.imagePreview.value), Some(FormDefaultMimeType)), tone)
  {
  }

  /**
   * The button is enabled yet the submit sends nothing exactly when the
   * description or name is non-empty but all whitespace; in logo mode the
   * two tests agree, and a disabled button never hides a payload.
   */
  lemma EnabledButRejected(f: FormFields, tone: Tone, fetch: ImageFetch)
    ensures (!SubmitDisabled(false, f) && Submit(f, tone, fetch).Rejected?) <==>
      || (f.mode == Description && f.description != "" && AllWhitespace(f.description))
      || (f.mode == Name && f.nameInput != "" && AllWhitespace(f.nameInput))
    ensures SubmitDisabled(false, f) ==> Submit(f, tone, fetch).Rejected?
  {
    match f.mode
    case Description =>
      TrimEmptyIffAllWhitespace(f.description);
      assert Submit(f, tone, fetch).Rejected? <==> AllWhitespace(f.description);
      assert SubmitDisabled(false, f) <==> f.description == "";
    case Name =>
      TrimEmptyIffAllWhitespace(f.nameInput);
      assert Submit(f, tone, fetch).Rejected? <==> AllWhitespace(f.nameInput);
      assert SubmitDisabled(false, f) <==> f.nameInput == "";
    case Logo =>
      assert Submit(f, tone, fetch).Rejected? <==> !HasPreview(f.imagePreview);
  }

  /**
   * The MIME type the service finally sends for a submitted logo is never
   * empty, even when the blob or the file reports an empty type.
   */
  lemma SubmittedLogoMimeTypeNeverEmpty(f: FormFields, tone: Tone, fetch: ImageFetch, language: Language)
    requires Submit(f, tone, fetch).Generate? && f.mode == Logo
    ensures var input := Submit(f, tone, fetch).input;
      var contents := BuildProgramRequest(input, tone, language).contents;
      contents.Parts? && |contents.parts| == 2 && contents.parts[0].mimeType != ""
  {
  }

  // ---------------------------------------------------------------------------
  // The README byte copy
  // ---------------------------------------------------------------------------

  newtype uint8 = x: int | 0 <= x < 256

  /** The value a `Uint8Array` stores for `x`: `x` modulo 2^8. */
  function ToUint8(x: int): uint8 {
    (x % 256) as uint8
  }

  /** The bytes of a binary string: each character's code, stored in a `Uint8Array`. */
  function BinaryBytes(binary: string): (r: seq<uint8>)
    ensures |r| == |binary|
  {
    seq(|binary|, i requires 0 <= i < |binary| => ToUint8(binary[i] as int))
  }

  /** `new Uint8Array(binary.length)` filled with `binary.charCodeAt(i)` at each `i`. */
  method CopyToBytes(binary: string) returns (bytes: array<uint8>)
    ensures fresh(bytes)
    ensures bytes.Length == |binary|
    ensures bytes[..] == BinaryBytes(binary)
  {
    bytes := new uint8[|binary|];
    var i := 0;
    while i < |binary|
      invariant 0 <= i <= |binary|
      invariant forall k :: 0 <= k < i ==> bytes[k] == ToUint8(binary[k] as int)
    {
      bytes[i] := ToUint8(binary[i] as int);
      i := i + 1;
    }
  }

  /** A binary string as `atob` returns it: every character code below 256. */
  predicate IsBinaryString(s: string) {
    forall i :: 0 <= i < |s| ==> (s[i] as int) < 256
  }

  /** For a binary string the copy is exact: byte `i` is the code of character `i`. */
  lemma BinaryBytesExact(binary: string)
    requires IsBinaryString(binary)
    ensures forall i :: 0 <= i < |binary| ==> BinaryBytes(binary)[i] as int == binary[i] as int
  {
  }

  // ---------------------------------------------------------------------------
  // The form's state
  // ---------------------------------------------------------------------------

  class FormState {
    var mode: InputMode
    var tone: Tone
    var description: string
    var nameInput: string
    var imageUrl: string
    var selectedFile: Option<FileInfo>
    var imagePreview: Option<string>

    /** At most one image source is active: a URL or a chosen file, never both. */
    predicate OneImageSource()
      reads this
    {
      imageUrl == "" || selectedFile.None?
    }

    /** The fields as `handleSubmit` and the button see them. */
    function Fields(): FormFields
      reads this
    {
      FormFields(mode, description, nameInput, imageUrl, selectedFile, imagePreview)
    }

    constructor ()
      ensures mode == Description && tone == Modern
      ensures description == "" && nameInput == ""
      ensures imageUrl == "" && selectedFile == None && imagePreview == None
      ensures OneImageSource()
    {
      mode := Description;
      tone := Modern;
      description := "";
      nameInput := "";
      imageUrl := "";
      selectedFile := None;
      imagePreview := None;
    }

    method SetMode(m: InputMode)
      modifies this`mode
      ensures mode == m
    {
      mode := m;
    }

    method SetTone(t: Tone)
      modifies this`tone
      ensures tone == t
    {
      tone := t;
    }

    method SetDescription(text: string)
      modifies this`description
      ensures description == text
    {
      description := text;
    }

    method SetNameInput(text: string)
      modifies this`nameInput
      ensures nameInput == text
    {
      nameInput := text;
    }

    /**
     * `handleFileChange`: choosing a file records it and clears the URL; the
     * preview is left to the reader's callback (`PreviewLoaded`). No file
     * chosen changes nothing.
     */
    method HandleFileChange(files: seq<FileInfo>)
      modifies this`selectedFile, this`imageUrl
      ensures |files| > 0 ==> selectedFile == Some(files[0]) && imageUrl == ""
      ensures |files| == 0 ==> selectedFile == old(selectedFile) && imageUrl == old(imageUrl)
      ensures old(OneImageSource()) ==> OneImageSource()
      ensures |files| > 0 ==> OneImageSource()
    {
      if |files| > 0 {
        selectedFile := Some(files[0]);
        imageUrl := "";
      }
    }

    /**
     * The file reader's `onloadend`: the preview becomes the reader's result,
     * the file's data URL, or `null` when the read failed.
     */
    method PreviewLoaded(result: Option<string>)
      modifies this`imagePreview
      ensures imagePreview == result
    {
      imagePreview := result;
    }

    /**
     * `handleUrlChange`: a non-empty URL drops the chosen file and becomes the
     * preview; an empty one clears the preview and keeps the file.
     */
    method HandleUrlChange(url: string)
      modifies this`imageUrl, this`selectedFile, this`imagePreview
      ensures imageUrl == url
      ensures url != "" ==> selectedFile == None && imagePreview == Some(url)
      ensures url == "" ==> selectedFile == old(selectedFile) && imagePreview == None
      ensures OneImageSource()
    {
      imageUrl := url;
      if Truthy(url) {
        selectedFile := None;
        imagePreview := Some(url);
      } else {
        imagePreview := None;
      }
    }

    /**
     * `handleSubmit` on the current fields and tone. Because a URL and a
     * chosen file are never both set, a logo sent with a chosen file always
     * carries that file's type and the data of its preview, never a fetched
     * blob's.
     */
    method HandleSubmit(fetch: ImageFetch) returns (r: SubmitOutcome)
      requires OneImageSource()
      ensures r == Submit(Fields(), tone, fetch)
      ensures r.Generate? ==> r.tone == tone
      ensures r.Generate? && mode == Logo && selectedFile.Some? ==>
        r.input == Image(DataPart(imagePreview.value), Some(selectedFile.value.mimeType))
      ensures mode == Logo && selectedFile.Some? ==> !r.ImageLoadFailed? && !r.SplitOnNull?
    {
      r := Submit(Fields(), tone, fetch);
    }

    /** The Remove button: no preview, no file, no URL. */
    method RemoveImage()
      modifies this`imageUrl, this`selectedFile, this`imagePreview
      ensures imagePreview == None && selectedFile == None && imageUrl == ""
      ensures OneImageSource()
    {
      imagePreview := None;
      selectedFile := None;
      imageUrl := "";
    }

    /**
     * The successful README path of `handleRepoSelect`: the decoded binary
     * string is copied into bytes, `decode` (the text decoder) turns them
     * into text, and that text becomes the description.
     */
    method LoadReadme(binary: string, decode: seq<uint8> -> string)
      modifies this`description
      ensures description == decode(BinaryBytes(binary))
    {
      var bytes := CopyToBytes(binary);
      description := decode(bytes[..]);
    }
  }
}
