/**
 * The request/response adapter around the remote image model
 * (services/geminiService.ts). The remote call itself is a parameter:
 * `generate` maps the request that would be sent to what the call produced,
 * a response or a thrown message.
 */
module GeminiService {
  import opened Wrappers
  import opened Types

  const ApiKeyMissingMessage := "API Key is missing. Please check your environment configuration."
  const TextInsteadOfImageMessage := "The AI returned text instead of an image. Please try again with a different image or setting."
  const NoImageDataMessage := "Failed to generate processed image. No image data received."
  const UnexpectedErrorMessage := "An unexpected error occurred during processing."

  const DefaultPrompt := "Remove the watermark from this image. Fill in the removed areas to match the background seamlessly."
  const GentlePrompt := "Gently remove the most obvious watermarks or text overlays from this image, preserving all other details."
  const AggressivePrompt := "Aggressively remove all watermarks, text, logos, and transparent patterns overlaying this image. Reconstruct the background where the watermarks were removed."

  const ModelName := "gemini-2.5-flash-image"
  const RequestMimeType := "image/png"

  /** The prefix every successful result carries. */
  const PngDataUrlPrefix := "data:image/png;base64,"

  /** The two literal pieces of the pattern `^data:image\/\w+;base64,`. */
  const DataImageScheme := "data:image/"
  const Base64Marker := ";base64,"

  /** An inline base64 payload with its media type. */
  datatype Blob = Blob(data: string, mimeType: string)

  /** One part of a request or of a response. */
  datatype Part = Part(inlineData: Option<Blob>, text: Option<string>)

  /**
   * What the remote call returned: the parts of the first candidate (None when
   * there are no candidates or the candidate has no parts) and the response text.
   */
  datatype Response = Response(parts: Option<seq<Part>>, text: Option<string>)

  /** The awaited remote call either returns a response or throws an error with a message. */
  datatype CallOutcome = Responded(response: Response) | Threw(message: string)

  /** The request sent to the remote model: the model name, the image part and the prompt part. */
  datatype Request = Request(model: string, image: Blob, prompt: string)

  /** JavaScript truthiness of a `string | undefined`: absent and "" are both false. */
  predicate Truthy(s: Option<string>)
  {
    s.Some? && s.value != ""
  }

  // ---------------------------------------------------------------------------
  // Prefix stripping: `imageBase64.replace(/^data:image\/\w+;base64,/, "")`
  // ---------------------------------------------------------------------------

  /** `\w` without the `u` flag. */
  predicate IsWordChar(c: char)
  {
    'a' <= c <= 'z' || 'A' <= c <= 'Z' || '0' <= c <= '9' || c == '_'
  }

  /** The length of the longest run of word characters at the start of `s`. */
  function WordRun(s: string): (n: nat)
    ensures n <= |s|
    ensures forall i :: 0 <= i < n ==> IsWordChar(s[i])
    ensures n < |s| ==> !IsWordChar(s[n])
  {
    if s == [] || !IsWordChar(s[0]) then 0 else 1 + WordRun(s[1..])
  }

  /** A run of `k` word characters followed by a non-word character has length `k`. */
  lemma WordRunStopsAt(s: string, k: nat)
    requires k < |s| && !IsWordChar(s[k])
    requires forall i :: 0 <= i < k ==> IsWordChar(s[i])
    ensures WordRun(s) == k
  {
  }

  /** The pattern matches at the start of `s` with `w` as the text of `\w+`. */
  ghost predicate PrefixMatch(s: string, w: string)
  {
    |w| > 0 && (forall i :: 0 <= i < |w| ==> IsWordChar(w[i]))
    && DataImageScheme + w + Base64Marker <= s
  }

  /**
   * The length of the text the anchored pattern matches, if it matches.
   * `\w+` is greedy and the character after it must be ';', which is not a
   * word character, so backtracking can never produce a shorter match: the
   * maximal word run is the only candidate.
   */
  function MatchedPrefixLength(s: string): (r: Option<nat>)
    ensures r.Some? ==> |DataImageScheme| + |Base64Marker| < r.value <= |s|
    ensures r.Some? ==> PrefixMatch(s, s[|DataImageScheme|..r.value - |Base64Marker|])
  {
    if DataImageScheme <= s then
      var n := WordRun(s[|DataImageScheme|..]);
      if 0 < n && Base64Marker <= s[|DataImageScheme| + n..] then
        var k, m := |DataImageScheme|, |Base64Marker|;
        assert s[..k + n + m] == s[..k] + s[k..k + n] + s[k + n..k + n + m];
        assert s[k + n..k + n + m] == s[k + n..][..m];
        Some(k + n + m)
      else None
    else None
  }

  /** Whenever the pattern matches, the matched length is fixed by the word it matches. */
  lemma PrefixMatchLength(s: string, w: string)
    requires PrefixMatch(s, w)
    ensures MatchedPrefixLength(s) == Some(|DataImageScheme| + |w| + |Base64Marker|)
  {
    var k := |DataImageScheme|;
    var t := s[k..];
    assert s[..k] == DataImageScheme;
    forall i | 0 <= i < |w|
      ensures t[i] == w[i]
    {
      assert s[k + i] == (DataImageScheme + w + Base64Marker)[k + i];
    }
    assert t[|w|] == ';' by {
      assert s[k + |w|] == (DataImageScheme + w + Base64Marker)[k + |w|];
    }
    WordRunStopsAt(t, |w|);
    var n := |w|;
    assert s[k + n..][..|Base64Marker|] == Base64Marker by {
      forall i | 0 <= i < |Base64Marker|
        ensures s[k + n + i] == Base64Marker[i]
      {
        assert s[k + n + i] == (DataImageScheme + w + Base64Marker)[k + n + i];
      }
    }
  }

  /** The image data sent to the model: the input without one leading data-URL prefix. */
  function StripDataUrlPrefix(s: string): (r: string)
    ensures |r| <= |s| && r == s[|s| - |r|..]
    ensures r != s ==> exists w :: PrefixMatch(s, w) && s == DataImageScheme + w + Base64Marker + r
  {
    match MatchedPrefixLength(s)
    case Some(n) =>
      var w := s[|DataImageScheme|..n - |Base64Marker|];
      assert s == DataImageScheme + w + Base64Marker + s[n..] by {
        assert s == s[..n] + s[n..];
      }
      s[n..]
    case None => s
  }

  /** Stripping removes exactly a matching prefix, whatever follows it. */
  lemma StripRemovesPrefix(w: string, rest: string)
    requires |w| > 0 && forall i :: 0 <= i < |w| ==> IsWordChar(w[i])
    ensures StripDataUrlPrefix(DataImageScheme + w + Base64Marker + rest) == rest
  {
    var s := DataImageScheme + w + Base64Marker + rest;
    assert DataImageScheme + w + Base64Marker <= s by {
      assert s == (DataImageScheme + w + Base64Marker) + rest;
    }
    PrefixMatchLength(s, w);
    assert s[|DataImageScheme + w + Base64Marker|..] == rest by {
      assert s == (DataImageScheme + w + Base64Marker) + rest;
    }
  }

  /** Stripping leaves a string without a matching prefix unchanged. */
  lemma StripKeepsUnprefixed(s: string)
    requires forall w :: !PrefixMatch(s, w)
    ensures StripDataUrlPrefix(s) == s
  {
  }

  /** Stripping a PNG data-URL prefix gives back the payload. */
  lemma StripPngPrefix(data: string)
    ensures StripDataUrlPrefix(PngDataUrlPrefix + data) == data
  {
    var png := "png";
    assert forall i :: 0 <= i < |png| ==> IsWordChar(png[i]);
    assert PngDataUrlPrefix + data == DataImageScheme + png + Base64Marker + data;
    StripRemovesPrefix(png, data);
  }

  /** Only one prefix is removed (the pattern has no `g` flag and is anchored). */
  lemma StripRemovesOnlyOnePrefix(data: string)
    ensures StripDataUrlPrefix(PngDataUrlPrefix + PngDataUrlPrefix + data) == PngDataUrlPrefix + data
  {
    assert PngDataUrlPrefix + PngDataUrlPrefix + data == PngDataUrlPrefix + (PngDataUrlPrefix + data);
    StripPngPrefix(PngDataUrlPrefix + data);
  }

  // ---------------------------------------------------------------------------
  // Request construction
  // ---------------------------------------------------------------------------

  /** The prompt chosen by aggressiveness: gentle below 30, aggressive above 70. */
  function SelectPrompt(aggressiveness: int): (prompt: string)
    ensures prompt == GentlePrompt <==> aggressiveness < 30
    ensures prompt == AggressivePrompt <==> aggressiveness > 70
    ensures prompt == DefaultPrompt <==> 30 <= aggressiveness <= 70
  {
    if aggressiveness < 30 then GentlePrompt
    else if aggressiveness > 70 then AggressivePrompt
    else DefaultPrompt
  }

  /** Orders the prompts as the slider's labels do: Gentle, Balanced, Aggressive. */
  function PromptStrength(prompt: string): nat
  {
    if prompt == GentlePrompt then 0 else if prompt == AggressivePrompt then 2 else 1
  }

  /** A higher aggressiveness never selects a gentler prompt. */
  lemma SelectPromptMonotone(a1: int, a2: int)
    requires a1 <= a2
    ensures PromptStrength(SelectPrompt(a1)) <= PromptStrength(SelectPrompt(a2))
  {
  }

  /** The request sent for an image and options. */
  function BuildRequest(imageBase64: string, options: ProcessingOptions): (request: Request)
    ensures request.model == ModelName
    ensures request.image.mimeType == RequestMimeType
    ensures request.image.data == StripDataUrlPrefix(imageBase64)
    ensures request.prompt == SelectPrompt(options.aggressiveness)
  {
    Request(ModelName, Blob(StripDataUrlPrefix(imageBase64), RequestMimeType), SelectPrompt(options.aggressiveness))
  }

  /** Only the aggressiveness is read: `detectOnly` never changes the request. */
  lemma RequestIgnoresDetectOnly(imageBase64: string, o1: ProcessingOptions, o2: ProcessingOptions)
    requires o1.aggressiveness == o2.aggressiveness
    ensures BuildRequest(imageBase64, o1) == BuildRequest(imageBase64, o2)
  {
  }

  /** The request mime type is PNG whatever the input's own media type. */
  lemma RequestIsAlwaysPng(w: string, data: string, options: ProcessingOptions)
    requires |w| > 0 && forall i :: 0 <= i < |w| ==> IsWordChar(w[i])
    ensures BuildRequest(DataImageScheme + w + Base64Marker + data, options).image == Blob(data, RequestMimeType)
  {
    StripRemovesPrefix(w, data);
  }

  // ---------------------------------------------------------------------------
  // Response handling
  // ---------------------------------------------------------------------------

  /** The index of the first part that carries inline data. */
  function FirstImageIndex(parts: seq<Part>): (r: Option<nat>)
    ensures r.Some? ==> r.value < |parts| && parts[r.value].inlineData.Some?
    ensures r.Some? ==> forall j :: 0 <= j < r.value ==> parts[j].inlineData.None?
    ensures r.None? ==> forall j :: 0 <= j < |parts| ==> parts[j].inlineData.None?
  {
    if parts == [] then None
    else if parts[0].inlineData.Some? then Some(0)
    else
      match FirstImageIndex(parts[1..])
      case Some(k) => Some(k + 1)
      case None => None
  }

  /** The result the scan of the parts returns: the first inline payload, re-labelled as PNG. */
  function ImageFromParts(parts: seq<Part>): Option<string>
  {
    match FirstImageIndex(parts)
    case Some(i) => Some(PngDataUrlPrefix + parts[i].inlineData.value.data)
    case None => None
  }

  /** The scan of the parts: a first-match search that returns early. */
  method ScanParts(parts: seq<Part>) returns (image: Option<string>)
    ensures image == ImageFromParts(parts)
  {
    for i := 0 to |parts|
      invariant forall j :: 0 <= j < i ==> parts[j].inlineData.None?
    {
      if parts[i].inlineData.Some? {
        return Some(PngDataUrlPrefix + parts[i].inlineData.value.data);
      }
    }
    return None;
  }

  /** What the body of the `try` produces from a response, before the `catch` re-wraps errors. */
  function InterpretResponse(response: Response): (r: Result<string, string>)
    ensures r.Ok? <==> response.parts.Some? && FirstImageIndex(response.parts.value).Some?
    ensures r.Ok? ==> r.value == PngDataUrlPrefix + response.parts.value[FirstImageIndex(response.parts.value).value].inlineData.value.data
    ensures r.Err? ==> r.error == (if Truthy(response.text) then TextInsteadOfImageMessage else NoImageDataMessage)
  {
    var image := if response.parts.Some? then ImageFromParts(response.parts.value) else None;
    match image
    case Some(dataUrl) => Ok(dataUrl)
    case None =>
      if Truthy(response.text) then Err(TextInsteadOfImageMessage) else Err(NoImageDataMessage)
  }

  /** The `catch`: an error is re-thrown with its message, or a fallback when that is empty. */
  function Rewrap(message: string): (r: string)
    ensures r != ""
    ensures message != "" ==> r == message
    ensures message == "" ==> r == UnexpectedErrorMessage
  {
    if message == "" then UnexpectedErrorMessage else message
  }

  /**
   * `removeWatermark`: the key guard (outside the `try`), the request, the
   * awaited call, the response scan and the error re-wrap.
   */
  function RemoveWatermark(apiKey: string, imageBase64: string, options: ProcessingOptions,
                           generate: Request -> CallOutcome): (r: Result<string, string>)
    ensures apiKey == "" ==> r == Err(ApiKeyMissingMessage)
    ensures r.Err? ==> r.error != ""
    ensures r.Ok? ==> PngDataUrlPrefix <= r.value
  {
    if apiKey == "" then
      Err(ApiKeyMissingMessage)
    else
      var attempt :=
        match generate(BuildRequest(imageBase64, options))
        case Threw(message) => Err(message)
        case Responded(response) => InterpretResponse(response);
      match attempt
      case Ok(image) => Ok(image)
      case Err(message) => Err(Rewrap(message))
  }

  /** The call succeeds exactly when a key is set and the response has an image part. */
  lemma RemoveWatermarkSucceeds(apiKey: string, imageBase64: string, options: ProcessingOptions,
                                generate: Request -> CallOutcome)
    ensures var outcome := generate(BuildRequest(imageBase64, options));
      RemoveWatermark(apiKey, imageBase64, options, generate).Ok?
      <==> apiKey != "" && outcome.Responded? && outcome.response.parts.Some?
           && FirstImageIndex(outcome.response.parts.value).Some?
  {
  }

  /** Round trip: stripping the prefix from a result gives back the first image part's data. */
  lemma ResultRoundTrip(apiKey: string, imageBase64: string, options: ProcessingOptions,
                        generate: Request -> CallOutcome)
    requires RemoveWatermark(apiKey, imageBase64, options, generate).Ok?
    ensures var parts := generate(BuildRequest(imageBase64, options)).response.parts.value;
      StripDataUrlPrefix(RemoveWatermark(apiKey, imageBase64, options, generate).value)
      == parts[FirstImageIndex(parts).value].inlineData.value.data
  {
    var parts := generate(BuildRequest(imageBase64, options)).response.parts.value;
    StripPngPrefix(parts[FirstImageIndex(parts).value].inlineData.value.data);
  }

  /** With a key set, the error is the call's message (or the fallback), or one of the two response errors unchanged. */
  lemma RemoveWatermarkErrors(apiKey: string, imageBase64: string, options: ProcessingOptions,
                              generate: Request -> CallOutcome)
    requires apiKey != ""
    ensures var outcome := generate(BuildRequest(imageBase64, options));
      var r := RemoveWatermark(apiKey, imageBase64, options, generate);
      && (outcome.Threw? ==> r == Err(if outcome.message == "" then UnexpectedErrorMessage else outcome.message))
      && (outcome.Responded? && r.Err? && Truthy(outcome.response.text) ==> r == Err(TextInsteadOfImageMessage))
      && (outcome.Responded? && r.Err? && !Truthy(outcome.response.text) ==> r == Err(NoImageDataMessage))
  {
  }

  /** `detectOnly` has no effect on the outcome of the call. */
  lemma RemoveWatermarkIgnoresDetectOnly(apiKey: string, imageBase64: string,
                                         o1: ProcessingOptions, o2: ProcessingOptions,
                                         generate: Request -> CallOutcome)
    requires o1.aggressiveness == o2.aggressiveness
    ensures RemoveWatermark(apiKey, imageBase64, o1, generate) == RemoveWatermark(apiKey, imageBase64, o2, generate)
  {
  }
}
