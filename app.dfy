/**
 * The session state machine of the single-page application (App.tsx).
 *
 * Each handler is a method of `App`. The two asynchronous completion points
 * are events of their own: `ReadCompleted` (the file reader's load) and
 * `CompleteProcess` (the awaited service call), each taking the outcome as a
 * parameter. The alert timer is the explicit event `ExpireAlert`.
 */
module ClearViewApp {
  import opened Wrappers
  import opened Types
  import GeminiService

  /** Files strictly larger than 5 MiB are rejected. */
  const MaxFileSize: nat := 5 * 1024 * 1024
  const FileTooLargeMessage := "File too large. Please upload an image smaller than 5MB."
  const ProcessFailedMessage := "Failed to process image. Please try again."
  const DownloadNamePrefix := "clearview-cleaned-"
  const DownloadNameSuffix := ".png"

  /** The arguments `handleProcess` passes to the service, captured when it is invoked. */
  datatype ServiceCall = ServiceCall(image: string, options: ProcessingOptions)

  /** The link `handleDownload` clicks: what it points at and the name it suggests. */
  datatype Download = Download(href: string, filename: string)

  /** JavaScript truthiness of a `string | null`: null and "" are both false. */
  predicate Present(s: Option<string>)
  {
    s.Some? && s.value != ""
  }

  /** The alert text for a failed call: the error's message, or a fallback when it is empty. */
  function FailureMessage(message: string): (r: string)
    ensures r != ""
    ensures message != "" ==> r == message
    ensures message == "" ==> r == ProcessFailedMessage
  {
    if message == "" then ProcessFailedMessage else message
  }

  // ---------------------------------------------------------------------------
  // Download file name: `clearview-cleaned-${Date.now()}.png`
  // ---------------------------------------------------------------------------

  predicate IsDigit(c: char)
  {
    '0' <= c <= '9'
  }

  function DigitChar(d: nat): (c: char)
    requires d < 10
    ensures IsDigit(c) && (c - '0') as nat == d
  {
    "0123456789"[d]
  }

  /** The decimal rendering of a non-negative integer, without leading zeros. */
  function Decimal(n: nat): (s: string)
    ensures |s| > 0 && forall i :: 0 <= i < |s| ==> IsDigit(s[i])
    ensures |s| > 1 ==> s[0] != '0'
  {
    if n < 10 then [DigitChar(n)] else Decimal(n / 10) + [DigitChar(n % 10)]
  }

  /** The value a string of decimal digits denotes. */
  function DecimalValue(s: string): nat
    requires forall i :: 0 <= i < |s| ==> IsDigit(s[i])
  {
    if s == [] then 0
    else
      var last := s[|s| - 1];
      assert IsDigit(last);
      10 * DecimalValue(s[..|s| - 1]) + (last as int - '0' as int)
  }

  /** Reading back the rendering of a timestamp gives the timestamp. */
  lemma {:induction false} DecimalRoundTrip(n: nat)
    ensures DecimalValue(Decimal(n)) == n
  {
    if n >= 10 {
      DecimalRoundTrip(n / 10);
      assert Decimal(n)[..|Decimal(n)| - 1] == Decimal(n / 10);
    }
  }

  /** The suggested name of the downloaded file for a millisecond timestamp. */
  function DownloadFilename(timestamp: nat): (name: string)
    ensures DownloadNamePrefix <= name
    ensures |name| > |DownloadNamePrefix| + |DownloadNameSuffix|
    ensures name[|name| - |DownloadNameSuffix|..] == DownloadNameSuffix
  {
    DownloadNamePrefix + Decimal(timestamp) + DownloadNameSuffix
  }

  /** Downloads made at different instants get different names. */
  lemma DownloadFilenameInjective(t1: nat, t2: nat)
    requires DownloadFilename(t1) == DownloadFilename(t2)
    ensures t1 == t2
  {
    var name := DownloadFilename(t1);
    var start, end := |DownloadNamePrefix|, |name| - |DownloadNameSuffix|;
    assert Decimal(t1) == name[start..end];
    assert Decimal(t2) == name[start..end];
    DecimalRoundTrip(t1);
    DecimalRoundTrip(t2);
  }

  // ---------------------------------------------------------------------------
  // The session
  // ---------------------------------------------------------------------------

  class App {
    var appState: AppState
    var originalImage: Option<string>
    var processedImage: Option<string>
    var processingOptions: ProcessingOptions
    var alert: Option<AlertMessage>

    /** Accepted files whose load has not yet completed. */
    ghost var readsInFlight: nat
    /** Service calls whose outcome has not yet been applied. */
    ghost var requestsInFlight: nat

    /**
     * What the render guards presuppose of each phase: the upload view has
     * no images, preview and processing show the original, the result view
     * shows both, and the error phase never occurs.
     */
    ghost predicate ImagesMatchPhase()
      reads this
    {
      match appState
      case Idle => originalImage.None? && processedImage.None?
      case Preview => Present(originalImage) && processedImage.None?
      case Processing => Present(originalImage) && processedImage.None?
      case Completed => Present(originalImage) && processedImage.Some?
      case Error => false
    }

    /**
     * The session invariant: the phase invariant, options within the
     * slider's range, only error alerts, and at most one asynchronous
     * operation outstanding, which is a call exactly while processing and a
     * file load only while idle.
     */
    ghost predicate Valid()
      reads this
    {
      && ImagesMatchPhase()
      && ValidOptions(processingOptions)
      && (alert.Some? ==> alert.value.kind == AlertType.Error)
      && readsInFlight + requestsInFlight <= 1
      && (requestsInFlight == 1 <==> appState == Processing)
      && (readsInFlight == 1 ==> appState == Idle)
    }

    /** The initial state. */
    constructor ()
      ensures appState == Idle && originalImage == None && processedImage == None
      ensures processingOptions == DefaultOptions && alert == None
      ensures readsInFlight == 0 && requestsInFlight == 0
      ensures Valid()
    {
      appState := Idle;
      originalImage := None;
      processedImage := None;
      processingOptions := DefaultOptions;
      alert := None;
      readsInFlight := 0;
      requestsInFlight := 0;
    }

    /**
     * `handleImageSelect`: the size check, then a file load is started.
     * The uploader is only shown while idle.
     */
    method HandleImageSelect(fileSize: nat) returns (accepted: bool)
      modifies this
      ensures accepted <==> fileSize <= MaxFileSize
      ensures !accepted ==> alert == Some(AlertMessage(AlertType.Error, FileTooLargeMessage))
      ensures !accepted ==> readsInFlight == old(readsInFlight)
      ensures accepted ==> alert == old(alert) && readsInFlight == old(readsInFlight) + 1
      ensures appState == old(appState) && originalImage == old(originalImage)
      ensures processedImage == old(processedImage) && processingOptions == old(processingOptions)
      ensures requestsInFlight == old(requestsInFlight)
      ensures old(appState) != AppState.Error ==> appState != AppState.Error
      ensures old(Valid()) && (!accepted || (old(appState) == Idle && old(readsInFlight) == 0)) ==> Valid()
    {
      if fileSize > MaxFileSize {
        alert := Some(AlertMessage(AlertType.Error, FileTooLargeMessage));
        return false;
      }
      readsInFlight := readsInFlight + 1;
      return true;
    }

    /** The file reader's load event for a started read, with its result. */
    method ReadCompleted(result: Option<string>)
      requires readsInFlight > 0
      modifies this
      ensures readsInFlight == old(readsInFlight) - 1
      ensures Present(result) ==> appState == Preview && originalImage == result
      ensures Present(result) ==> processedImage == None && alert == None
      ensures !Present(result) ==> appState == old(appState) && originalImage == old(originalImage)
      ensures !Present(result) ==> processedImage == old(processedImage) && alert == old(alert)
      ensures processingOptions == old(processingOptions) && requestsInFlight == old(requestsInFlight)
      ensures old(appState) != AppState.Error ==> appState != AppState.Error
      ensures old(Valid()) ==> Valid()
    {
      readsInFlight := readsInFlight - 1;
      if Present(result) {
        originalImage := result;
        appState := Preview;
        processedImage := None;
        alert := None;
      }
    }

    /**
     * The first half of `handleProcess`, up to the await: without an
     * original image nothing happens; otherwise the phase becomes
     * processing, the alert is cleared and the service is called with the
     * current image and options, which `call` returns.
     */
    method HandleProcess() returns (call: Option<ServiceCall>)
      modifies this
      ensures !Present(old(originalImage)) ==> call == None && unchanged(this)
      ensures Present(old(originalImage)) ==> call == Some(ServiceCall(old(originalImage).value, old(processingOptions)))
      ensures Present(old(originalImage)) ==> appState == Processing && alert == None
      ensures Present(old(originalImage)) ==> requestsInFlight == old(requestsInFlight) + 1
      ensures originalImage == old(originalImage) && processedImage == old(processedImage)
      ensures processingOptions == old(processingOptions) && readsInFlight == old(readsInFlight)
      ensures old(appState) != AppState.Error ==> appState != AppState.Error
      ensures old(Valid()) && (old(appState) == Idle || old(appState) == Preview) ==> Valid()
    {
      if !Present(originalImage) {
        return None;
      }
      appState := Processing;
      alert := None;
      requestsInFlight := requestsInFlight + 1;
      return Some(ServiceCall(originalImage.value, processingOptions));
    }

    /** The second half of `handleProcess`: the awaited call returned or threw. */
    method CompleteProcess(outcome: Result<string, string>)
      requires requestsInFlight > 0
      modifies this
      ensures requestsInFlight == old(requestsInFlight) - 1
      ensures outcome.Ok? ==> processedImage == Some(outcome.value) && appState == Completed
      ensures outcome.Ok? ==> alert == old(alert)
      ensures outcome.Err? ==> appState == Preview && processedImage == old(processedImage)
      ensures outcome.Err? ==> alert == Some(AlertMessage(AlertType.Error, FailureMessage(outcome.error)))
      ensures originalImage == old(originalImage) && processingOptions == old(processingOptions)
      ensures readsInFlight == old(readsInFlight)
      ensures old(appState) != AppState.Error ==> appState != AppState.Error
      ensures old(Valid()) ==> Valid()
    {
      requestsInFlight := requestsInFlight - 1;
      match outcome
      case Ok(image) =>
        processedImage := Some(image);
        appState := Completed;
      case Err(message) =>
        appState := Preview;
        alert := Some(AlertMessage(AlertType.Error, FailureMessage(message)));
    }

    /**
     * The whole of `handleProcess` when nothing else happens during the
     * await: the service is `RemoveWatermark` with the given key and remote
     * call.
     */
    method RunProcess(apiKey: string, generate: GeminiService.Request -> GeminiService.CallOutcome)
      returns (outcome: Result<string, string>)
      requires Valid()
      requires appState == Preview
      modifies this
      ensures Valid()
      ensures outcome == GeminiService.RemoveWatermark(apiKey, old(originalImage).value, old(processingOptions), generate)
      ensures outcome.Ok? ==> appState == Completed && processedImage == Some(outcome.value)
      ensures outcome.Ok? ==> alert == None
      ensures outcome.Err? ==> appState == Preview && processedImage == None
      ensures outcome.Err? ==> alert == Some(AlertMessage(AlertType.Error, outcome.error))
      ensures originalImage == old(originalImage) && processingOptions == old(processingOptions)
      ensures readsInFlight == old(readsInFlight) && requestsInFlight == old(requestsInFlight)
    {
      var call := HandleProcess();
      outcome := GeminiService.RemoveWatermark(apiKey, call.value.image, call.value.options, generate);
      CompleteProcess(outcome);
    }

    /** `handleReset`: both images are dropped; the alert and the options stay. */
    method HandleReset()
      modifies this
      ensures appState == Idle && originalImage == None && processedImage == None
      ensures alert == old(alert) && processingOptions == old(processingOptions)
      ensures readsInFlight == old(readsInFlight) && requestsInFlight == old(requestsInFlight)
      ensures old(Valid()) && old(appState) != Processing ==> Valid()
    {
      originalImage := None;
      processedImage := None;
      appState := Idle;
    }

    /** The options control replaces the options wholesale. */
    method SetProcessingOptions(options: ProcessingOptions)
      modifies this
      ensures processingOptions == options
      ensures appState == old(appState) && originalImage == old(originalImage)
      ensures processedImage == old(processedImage) && alert == old(alert)
      ensures readsInFlight == old(readsInFlight) && requestsInFlight == old(requestsInFlight)
      ensures old(Valid()) && ValidOptions(options) ==> Valid()
    {
      processingOptions := options;
    }

    /** The alert's display time ran out. */
    method ExpireAlert()
      modifies this
      ensures alert == None
      ensures appState == old(appState) && originalImage == old(originalImage)
      ensures processedImage == old(processedImage) && processingOptions == old(processingOptions)
      ensures readsInFlight == old(readsInFlight) && requestsInFlight == old(requestsInFlight)
      ensures old(Valid()) ==> Valid()
    {
      alert := None;
    }

    /** `handleDownload` at the given millisecond timestamp: nothing without a processed image. */
    method HandleDownload(timestamp: nat) returns (download: Option<Download>)
      ensures download.None? <==> !Present(processedImage)
      ensures download.Some? ==> download.value.href == processedImage.value
      ensures download.Some? ==> download.value.filename == DownloadFilename(timestamp)
    {
      if !Present(processedImage) {
        return None;
      }
      return Some(Download(processedImage.value, DownloadFilename(timestamp)));
    }
  }

  // ---------------------------------------------------------------------------
  // Sessions from start to end
  // ---------------------------------------------------------------------------

  /** A remote call that answers with one inline image part. */
  function AnswerWithImage(data: string): GeminiService.Request -> GeminiService.CallOutcome
  {
    _ => GeminiService.Responded(GeminiService.Response(
           Some([GeminiService.Part(Some(GeminiService.Blob(data, "image/png")), None)]), None))
  }

  /** A remote call that answers with text only. */
  function AnswerWithText(text: string): GeminiService.Request -> GeminiService.CallOutcome
  {
    _ => GeminiService.Responded(GeminiService.Response(
           Some([GeminiService.Part(None, Some(text))]), Some(text)))
  }

  /** An oversized file leaves the session idle with a size error. */
  method OversizedUpload() returns (phase: AppState, shown: Option<AlertMessage>)
    ensures phase == Idle && shown == Some(AlertMessage(AlertType.Error, FileTooLargeMessage))
  {
    var app := new App();
    var accepted := app.HandleImageSelect(6 * 1024 * 1024);
    phase, shown := app.appState, app.alert;
  }

  /**
   * Upload, select a high aggressiveness, process; the remote call answers
   * with one image part: the session completes with the re-labelled payload
   * and the aggressive prompt was chosen.
   */
  method SuccessfulSession(image: string, data: string, apiKey: string)
    returns (phase: AppState, processed: Option<string>, prompt: string)
    requires image != "" && apiKey != ""
    ensures phase == Completed && processed == Some(GeminiService.PngDataUrlPrefix + data)
    ensures prompt == GeminiService.AggressivePrompt
  {
    var app := new App();
    var accepted := app.HandleImageSelect(2 * 1024 * 1024);
    app.ReadCompleted(Some(image));
    app.SetProcessingOptions(ProcessingOptions(80, false));
    var outcome := app.RunProcess(apiKey, AnswerWithImage(data));
    phase, processed := app.appState, app.processedImage;
    prompt := GeminiService.BuildRequest(image, app.processingOptions).prompt;
  }

  /** Without a key the session returns to preview with the key error. */
  method SessionWithoutKey(image: string) returns (phase: AppState, shown: Option<AlertMessage>)
    requires image != ""
    ensures phase == Preview
    ensures shown == Some(AlertMessage(AlertType.Error, GeminiService.ApiKeyMissingMessage))
  {
    var app := new App();
    var accepted := app.HandleImageSelect(1024);
    app.ReadCompleted(Some(image));
    var outcome := app.RunProcess("", AnswerWithImage(image));
    phase, shown := app.appState, app.alert;
  }

  /** A text-only answer returns the session to preview with the text error. */
  method SessionWithTextAnswer(image: string, text: string, apiKey: string)
    returns (phase: AppState, shown: Option<AlertMessage>)
    requires image != "" && text != "" && apiKey != ""
    ensures phase == Preview
    ensures shown == Some(AlertMessage(AlertType.Error, GeminiService.TextInsteadOfImageMessage))
  {
    var app := new App();
    var accepted := app.HandleImageSelect(1024);
    app.ReadCompleted(Some(image));
    var outcome := app.RunProcess(apiKey, AnswerWithText(text));
    phase, shown := app.appState, app.alert;
  }

  /**
   * A second file accepted while the first is still loading breaks the phase
   * invariant without any second click: the first load shows a preview, the
   * user starts processing, the late second load returns the session to
   * preview (where Cancel is enabled), the user cancels, and the call's
   * success then shows a result with no original image.
   */
  method SecondUploadThenReset(first: string, second: string, result: string)
    returns (phase: AppState, original: Option<string>, processed: Option<string>)
    requires first != "" && second != ""
    ensures phase == Completed && original == None && processed == Some(result)
  {
    var app := new App();
    var accepted1 := app.HandleImageSelect(1024);
    var accepted2 := app.HandleImageSelect(1024);
    app.ReadCompleted(Some(first));
    var call := app.HandleProcess();
    app.ReadCompleted(Some(second));
    app.HandleReset();
    app.CompleteProcess(Ok(result));
    phase, original, processed := app.appState, app.originalImage, app.processedImage;
  }

  /**
   * Without protection against a second click on the process button, the
   * phase invariant breaks: the first call completes, the user resets, and
   * the second call's success then shows a result with no original image.
   */
  method DoubleProcessThenReset(image: string, first: string, second: string)
    returns (phase: AppState, original: Option<string>, processed: Option<string>)
    requires image != ""
    ensures phase == Completed && original == None && processed == Some(second)
  {
    var app := new App();
    var accepted := app.HandleImageSelect(1024);
    app.ReadCompleted(Some(image));
    var call1 := app.HandleProcess();
    var call2 := app.HandleProcess();
    app.CompleteProcess(Ok(first));
    app.HandleReset();
    app.CompleteProcess(Ok(second));
    phase, original, processed := app.appState, app.originalImage, app.processedImage;
  }
}
