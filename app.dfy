/** The try-on page (App.tsx): its form-validity and enablement predicates,
    the run of three dependent service calls, and the reset. The remote
    service is a function `respond` from a call to its outcome, `Ok(text)` or
    `Err(message)`; the page's state cells are the fields of `TryOnSession`. */
module App {
  import opened Wrappers
  import opened Types
  import JsText
  import Api
  import ProcessingOverlay

  /** An uploaded image: the stripped base64 payload and its preview URL. */
  datatype Image = Image(base64: string, preview: string)

  /** `isFormValid`: a student id that is not blank once trimmed, and both images. */
  function IsFormValid(studentId: string, personImg: Option<Image>, clothImg: Option<Image>): (valid: bool)
    ensures valid <==> (exists i :: 0 <= i < |studentId| && !JsText.IsWhitespace(studentId[i]))
                       && personImg.Some? && clothImg.Some?
  {
    JsText.TrimSpec(studentId);
    JsText.Trim(studentId) != "" && personImg != None && clothImg != None
  }

  /** `disabled` of the id input and both uploaders. */
  function InputsDisabled(step: AppStep): (disabled: bool)
    ensures disabled <==> step in {AnalyzingUser, AnalyzingCloth, Generating}
  {
    step != Setup && step != Error && step != Success
  }

  /** `disabled` of the start button. */
  function StartDisabled(studentId: string, personImg: Option<Image>, clothImg: Option<Image>, step: AppStep): (disabled: bool)
    ensures disabled <==> !IsFormValid(studentId, personImg, clothImg)
                          || step in {AnalyzingUser, AnalyzingCloth, Generating}
  {
    !IsFormValid(studentId, personImg, clothImg) || InputsDisabled(step)
  }

  /** Whether the processing overlay is rendered. */
  function OverlayShown(step: AppStep): (shown: bool)
    ensures shown <==> step in {AnalyzingUser, AnalyzingCloth, Generating}
    ensures shown ==> ProcessingOverlay.StatusText(step) != ProcessingOverlay.ProcessingLabel
  {
    step == AnalyzingUser || step == AnalyzingCloth || step == Generating
  }

  /** The overlay covers the page exactly while the inputs are disabled. */
  lemma OverlayExactlyWhileDisabled(step: AppStep)
    ensures OverlayShown(step) == InputsDisabled(step)
  {
  }

  const PersonPrompt: string := "分析人物特徵：性別、動作、髮型與體型。請避免描述目前的服裝細節。"
  const ClothPrompt: string := "詳細描述這件服裝：剪裁、布料、顏色與風格細節。"
  const PromptLead: string := "時尚雜誌攝影風，一位具有以下特徵的模特兒："
  const PromptMiddle: string := "，穿著："
  const PromptTail: string := "。極簡攝影棚背景，自然柔和光影，高級商業時尚感，8k。"
  const FallbackError: string := "發生未知錯誤，請稍後再試。"
  const ResultPrefix: string := "data:image/png;base64,"

  /** The generation prompt: the fixed framing, the person description, then
      the garment description, then the fixed stylistic qualifiers. */
  function FinalPrompt(userDesc: string, clothDesc: string): (prompt: string)
    ensures |prompt| == |PromptLead| + |userDesc| + |PromptMiddle| + |clothDesc| + |PromptTail|
    ensures prompt[..|PromptLead|] == PromptLead
    ensures prompt[|PromptLead|..|PromptLead| + |userDesc|] == userDesc
    ensures prompt[|PromptLead| + |userDesc|..|PromptLead| + |userDesc| + |PromptMiddle|] == PromptMiddle
    ensures prompt[|PromptLead| + |userDesc| + |PromptMiddle|..|prompt| - |PromptTail|] == clothDesc
    ensures prompt[|prompt| - |PromptTail|..] == PromptTail
  {
    PromptLead + userDesc + PromptMiddle + clothDesc + PromptTail
  }

  /** `err.message || fallback`: the message shown for a failed run is never
      empty; it is the thrown message when that one is non-empty, else the
      fixed fallback. */
  function ErrorText(message: string): (text: string)
    ensures text != []
    ensures message != [] ==> text == message
    ensures message == [] ==> text == FallbackError
  {
    if message != [] then message else FallbackError
  }

  /** One request to the remote service. */
  datatype Call =
    | DescribeImage(studentId: string, base64Image: string, prompt: string)
    | SynthesizeImage(studentId: string, prompt: string)

  /** The rendered state: the three cells a run updates. */
  datatype View = View(step: AppStep, errorMsg: Option<string>, resultImg: Option<string>)

  /** At most one of result and error is set, each only in its own terminal
      step and always non-empty. */
  predicate Consistent(v: View)
  {
    && (v.resultImg.Some? <==> v.step == Success)
    && (v.errorMsg.Some? <==> v.step == Error)
    && (v.resultImg.Some? ==> v.resultImg.value != [])
    && (v.errorMsg.Some? ==> v.errorMsg.value != [])
  }

  function InFlightView(step: AppStep): View
  {
    View(step, None, None)
  }

  function FailedView(message: string): View
  {
    View(Error, Some(ErrorText(message)), None)
  }

  /** A run: the calls issued, in order, and the views rendered, in order; the
      last view is the state the run leaves behind. */
  datatype Run = Run(calls: seq<Call>, views: seq<View>)

  /** The step rendered while the call at position i of a run is outstanding. */
  function StepOfCall(i: nat): AppStep
  {
    if i == 0 then AnalyzingUser else if i == 1 then AnalyzingCloth else Generating
  }

  /** The run `handleStartTryOn` performs on a valid form. Each call is
      issued only after the previous one succeeded, under its own in-flight
      step; the run ends in `success` with the result, or in `error` right
      after the first failing call. */
  function Pipeline(studentId: string, personBase64: string, clothBase64: string,
                    respond: Call -> Result<string, string>): (run: Run)
    ensures 1 <= |run.calls| <= 3 && |run.views| == |run.calls| + 1
    ensures forall i :: 0 <= i < |run.calls| ==> run.views[i] == InFlightView(StepOfCall(i))
    ensures forall i :: 0 <= i < |run.views| ==> Consistent(run.views[i])
    ensures forall i :: 0 <= i < |run.calls| - 1 ==> respond(run.calls[i]).Ok?
    ensures run.calls[0] == DescribeImage(studentId, personBase64, PersonPrompt)
    ensures |run.calls| >= 2 ==> run.calls[1] == DescribeImage(studentId, clothBase64, ClothPrompt)
    ensures |run.calls| == 3 ==> run.calls[2] == SynthesizeImage(studentId,
              FinalPrompt(respond(run.calls[0]).value, respond(run.calls[1]).value))
    ensures var last := respond(run.calls[|run.calls| - 1]);
            var final := run.views[|run.views| - 1];
            && (final.step == Success || final.step == Error)
            && (final.step == Error <==> last.Err?)
            && (last.Err? ==> final == FailedView(last.error))
            && (final.step == Success ==> |run.calls| == 3 && final.resultImg == Some(ResultPrefix + last.value))
  {
    var first := DescribeImage(studentId, personBase64, PersonPrompt);
    match respond(first)
    case Err(m) => Run([first], [InFlightView(AnalyzingUser), FailedView(m)])
    case Ok(userDesc) =>
      var second := DescribeImage(studentId, clothBase64, ClothPrompt);
      match respond(second)
      case Err(m) => Run([first, second], [InFlightView(AnalyzingUser), InFlightView(AnalyzingCloth), FailedView(m)])
      case Ok(clothDesc) =>
        var third := SynthesizeImage(studentId, FinalPrompt(userDesc, clothDesc));
        var views := [InFlightView(AnalyzingUser), InFlightView(AnalyzingCloth), InFlightView(Generating)];
        match respond(third)
        case Err(m) => Run([first, second, third], views + [FailedView(m)])
        case Ok(image) => Run([first, second, third], views + [View(Success, None, Some(ResultPrefix + image))])
  }

  /** The steps a run goes through, read off its views. */
  function Steps(views: seq<View>): (steps: seq<AppStep>)
    ensures |steps| == |views| && forall i :: 0 <= i < |views| ==> steps[i] == views[i].step
  {
    if views == [] then [] else [views[0].step] + Steps(views[1..])
  }

  /** When all three calls succeed, the run goes through the three in-flight
      steps to `success` and holds the synthesized image as a PNG data URI. */
  lemma PipelineSucceeds(studentId: string, personBase64: string, clothBase64: string,
                         respond: Call -> Result<string, string>)
    requires respond(DescribeImage(studentId, personBase64, PersonPrompt)).Ok?
    requires respond(DescribeImage(studentId, clothBase64, ClothPrompt)).Ok?
    requires respond(SynthesizeImage(studentId, FinalPrompt(
               respond(DescribeImage(studentId, personBase64, PersonPrompt)).value,
               respond(DescribeImage(studentId, clothBase64, ClothPrompt)).value))).Ok?
    ensures var run := Pipeline(studentId, personBase64, clothBase64, respond);
            && Steps(run.views) == [AnalyzingUser, AnalyzingCloth, Generating, Success]
            && run.views[3] == View(Success, None, Some(ResultPrefix + respond(run.calls[2]).value))
  {
  }

  /** A failing call ends the run at once: it is the last call issued, and the
      steps are the in-flight ones up to it, then `error`. */
  lemma PipelineStopsAtFailure(studentId: string, personBase64: string, clothBase64: string,
                               respond: Call -> Result<string, string>, k: nat)
    requires var run := Pipeline(studentId, personBase64, clothBase64, respond);
             k < |run.calls| && respond(run.calls[k]).Err?
    ensures var run := Pipeline(studentId, personBase64, clothBase64, respond);
            && |run.calls| == k + 1
            && Steps(run.views) == [AnalyzingUser, AnalyzingCloth, Generating][..k + 1] + [Error]
            && run.views[k + 1] == View(Error, Some(ErrorText(respond(run.calls[k]).error)), None)
  {
  }

  /** The status of the HTTP exchange a call makes. */
  function StatusOf(fetchText: Api.Request -> Api.Response<ImageToTextResponse>,
                    fetchImage: Api.Request -> Api.Response<TextToImageResponse>, c: Call): int
  {
    match c
    case DescribeImage(id, image, prompt) => fetchText(Api.ImageToTextRequest(id, image, prompt)).status
    case SynthesizeImage(id, prompt) => fetchImage(Api.TextToImageRequest(id, prompt)).status
  }

  /** What `err.message` is after a call through the API client: the
      `ApiError`'s message for a non-ok status, else the JavaScript engine's
      TypeError text for reading `property` of `undefined`, which is
      engine-defined and so the parameter `typeErrorMessage`. */
  function Respond(fetchText: Api.Request -> Api.Response<ImageToTextResponse>,
                   fetchImage: Api.Request -> Api.Response<TextToImageResponse>,
                   typeErrorMessage: string -> string, c: Call): (r: Result<string, string>)
    ensures !Api.IsOk(StatusOf(fetchText, fetchImage, c)) ==> r == Err(Api.HandleApiError(StatusOf(fetchText, fetchImage, c)))
    ensures c.DescribeImage? ==>
              var resp := fetchText(Api.ImageToTextRequest(c.studentId, c.base64Image, c.prompt));
              && (Api.IsOk(resp.status) && resp.body.candidates == [] ==> r == Err(typeErrorMessage("content")))
              && (Api.IsOk(resp.status) && resp.body.candidates != [] && resp.body.candidates[0].content.parts == []
                  ==> r == Err(typeErrorMessage("text")))
              && (r.Ok? <==> Api.IsOk(resp.status) && resp.body.candidates != [] && resp.body.candidates[0].content.parts != [])
              && (r.Ok? ==> r.value == resp.body.candidates[0].content.parts[0].text)
    ensures c.SynthesizeImage? ==>
              var resp := fetchImage(Api.TextToImageRequest(c.studentId, c.prompt));
              && (Api.IsOk(resp.status) && resp.body.candidates == [] ==> r == Err(typeErrorMessage("content")))
              && (Api.IsOk(resp.status) && resp.body.candidates != [] && resp.body.candidates[0].content.parts == []
                  ==> r == Err(typeErrorMessage("inline_data")))
              && (r.Ok? <==> Api.IsOk(resp.status) && resp.body.candidates != [] && resp.body.candidates[0].content.parts != [])
              && (r.Ok? ==> r.value == resp.body.candidates[0].content.parts[0].inlineData.data)
  {
    var outcome := match c
      case DescribeImage(id, image, prompt) => Api.ImageToText(id, image, prompt, fetchText)
      case SynthesizeImage(id, prompt) => Api.TextToImage(id, prompt, fetchImage);
    match outcome
    case Ok(v) => Ok(v)
    case Err(failure) =>
      Err(if failure.HttpFailure? then failure.error.message else typeErrorMessage(failure.property))
  }

  /** The service the page calls, as the API client provides it over two transports. */
  function Service(fetchText: Api.Request -> Api.Response<ImageToTextResponse>,
                   fetchImage: Api.Request -> Api.Response<TextToImageResponse>,
                   typeErrorMessage: string -> string): Call -> Result<string, string>
  {
    (c: Call) => Respond(fetchText, fetchImage, typeErrorMessage, c)
  }

  /** A non-ok status on any call of a run ends the run there, showing the
      status's message from `handleApiError`; no later call is issued. */
  lemma HttpFailureEndsRun(studentId: string, personBase64: string, clothBase64: string,
                           fetchText: Api.Request -> Api.Response<ImageToTextResponse>,
                           fetchImage: Api.Request -> Api.Response<TextToImageResponse>,
                           typeErrorMessage: string -> string, k: nat)
    requires var run := Pipeline(studentId, personBase64, clothBase64, Service(fetchText, fetchImage, typeErrorMessage));
             k < |run.calls| && !Api.IsOk(StatusOf(fetchText, fetchImage, run.calls[k]))
    ensures var run := Pipeline(studentId, personBase64, clothBase64, Service(fetchText, fetchImage, typeErrorMessage));
            && |run.calls| == k + 1
            && run.views[k + 1] == View(Error, Some(Api.HandleApiError(StatusOf(fetchText, fetchImage, run.calls[k]))), None)
  {
  }

  /** A rejected student id (401) on the first call ends the run with the
      fixed 401 message; neither later call is issued. */
  lemma UnauthorizedEndsRun(studentId: string, personBase64: string, clothBase64: string,
                            fetchText: Api.Request -> Api.Response<ImageToTextResponse>,
                            fetchImage: Api.Request -> Api.Response<TextToImageResponse>,
                            typeErrorMessage: string -> string)
    requires fetchText(Api.ImageToTextRequest(studentId, personBase64, PersonPrompt)).status == 401
    ensures var run := Pipeline(studentId, personBase64, clothBase64, Service(fetchText, fetchImage, typeErrorMessage));
            && run.calls == [DescribeImage(studentId, personBase64, PersonPrompt)]
            && run.views[1] == View(Error, Some(Api.UnauthorizedMessage), None)
  {
  }

  /** What the main panel shows: the result image, else the error, else the placeholder.
      Both cells are tested for truthiness, so an empty string counts as absent. */
  datatype Panel = ResultPanel(src: string) | ErrorPanel(message: string) | Placeholder

  function MainPanel(v: View): (panel: Panel)
    ensures Consistent(v) ==> (panel.ResultPanel? <==> v.step == Success)
    ensures Consistent(v) ==> (panel.ErrorPanel? <==> v.step == Error)
    ensures panel.ResultPanel? ==> v.resultImg == Some(panel.src)
    ensures panel.ErrorPanel? ==> v.errorMsg == Some(panel.message)
  {
    if v.resultImg.Some? && v.resultImg.value != [] then ResultPanel(v.resultImg.value)
    else if v.errorMsg.Some? && v.errorMsg.value != [] then ErrorPanel(v.errorMsg.value)
    else Placeholder
  }

  /** A stubbed service for a worked example. */
  function ScenarioService(c: Call): Result<string, string>
  {
    match c
    case DescribeImage(_, _, prompt) =>
      if prompt == PersonPrompt then Ok("female, standing pose") else Ok("red silk dress")
    case SynthesizeImage(_, _) => Ok("ABC123")
  }

  /** A worked example: both descriptions land in the prompt, person first,
      and the result is the synthesized payload as a PNG data URI. */
  lemma WorkedExample()
    ensures var run := Pipeline("A1234567", "person", "garment", ScenarioService);
            && run.calls[2] == SynthesizeImage("A1234567",
                 PromptLead + "female, standing pose" + PromptMiddle + "red silk dress" + PromptTail)
            && run.views[3] == View(Success, None, Some("data:image/png;base64,ABC123"))
  {
    assert ClothPrompt[0] != PersonPrompt[0];
    assert ScenarioService(DescribeImage("A1234567", "garment", ClothPrompt)) == Ok("red silk dress");
    assert ResultPrefix + "ABC123" == "data:image/png;base64,ABC123";
  }

  /** The page's state cells: the form inputs and what a run updates. */
  class TryOnSession {
    var studentId: string
    var personImg: Option<Image>
    var clothImg: Option<Image>
    var resultImg: Option<string>
    var step: AppStep
    var errorMsg: Option<string>

    function Current(): View
      reads this
    {
      View(step, errorMsg, resultImg)
    }

    ghost predicate Valid()
      reads this
    {
      Consistent(Current())
    }

    /** The initial state: an empty form in `setup`. */
    constructor ()
      ensures Valid()
      ensures studentId == "" && personImg == None && clothImg == None
      ensures Current() == View(Setup, None, None)
    {
      studentId, personImg, clothImg := "", None, None;
      step, errorMsg, resultImg := Setup, None, None;
    }

    /** The id input's change handler. */
    method SetStudentId(value: string)
      modifies this`studentId
      ensures studentId == value
    {
      studentId := value;
    }

    /** The person uploader's `onImageSelect`. */
    method SelectPersonImage(image: Image)
      modifies this`personImg
      ensures personImg == Some(image)
    {
      personImg := Some(image);
    }

    /** The garment uploader's `onImageSelect`. */
    method SelectClothImage(image: Image)
      modifies this`clothImg
      ensures clothImg == Some(image)
    {
      clothImg := Some(image);
    }

    /** The catch branch of a run: the message (or the fallback), then `error`.
        It is reached only after the run cleared the result. */
    method Fail(message: string)
      requires resultImg.None?
      modifies this`step, this`errorMsg
      ensures step == Error && errorMsg == Some(ErrorText(message)) && resultImg == old(resultImg)
      ensures Valid()
    {
      errorMsg := Some(ErrorText(message));
      step := Error;
    }

    /** `handleStartTryOn`. On an invalid form nothing happens and no call is
        issued; otherwise the run of `RunPipeline` takes place. `calls` and
        `views` report what was sent and what was rendered. */
    method StartTryOn(respond: Call -> Result<string, string>) returns (calls: seq<Call>, views: seq<View>)
      requires Valid()
      modifies this`step, this`errorMsg, this`resultImg
      ensures Valid()
      ensures !IsFormValid(studentId, personImg, clothImg) ==>
                calls == [] && views == [] && Current() == old(Current())
      ensures IsFormValid(studentId, personImg, clothImg) ==>
                && Run(calls, views) == Pipeline(studentId, personImg.value.base64, clothImg.value.base64, respond)
                && Current() == views[|views| - 1]
    {
      if !IsFormValid(studentId, personImg, clothImg) {
        return [], [];
      }
      calls, views := RunPipeline(respond);
      assert Current() == views[|views| - 1];
    }

    /** The body of the run: the step becomes `analyzing_user` with error and
        result cleared before any call, then the calls run one after another
        as `Pipeline` describes, each failure ending the run in `error`. */
    method RunPipeline(respond: Call -> Result<string, string>) returns (calls: seq<Call>, views: seq<View>)
      requires personImg.Some? && clothImg.Some?
      modifies this`step, this`errorMsg, this`resultImg
      ensures Valid()
      ensures Run(calls, views) == Pipeline(studentId, personImg.value.base64, clothImg.value.base64, respond)
      ensures Current() == views[|views| - 1]
    {
      step := AnalyzingUser;
      errorMsg := None;
      resultImg := None;
      views := [Current()];
      ghost var spec := Pipeline(studentId, personImg.value.base64, clothImg.value.base64, respond);

      var first := DescribeImage(studentId, personImg.value.base64, PersonPrompt);
      calls := [first];
      var userDesc := respond(first);
      if userDesc.Err? {
        Fail(userDesc.error);
        views := views + [Current()];
        assert views == [InFlightView(AnalyzingUser), FailedView(userDesc.error)];
        assert spec == Run(calls, views);
        return;
      }

      step := AnalyzingCloth;
      views := views + [Current()];
      ghost var twoViews := [InFlightView(AnalyzingUser), InFlightView(AnalyzingCloth)];
      assert views == twoViews;
      var second := DescribeImage(studentId, clothImg.value.base64, ClothPrompt);
      calls := calls + [second];
      var clothDesc := respond(second);
      if clothDesc.Err? {
        Fail(clothDesc.error);
        views := views + [Current()];
        assert views == twoViews + [FailedView(clothDesc.error)];
        assert spec == Run(calls, views);
        return;
      }

      step := Generating;
      views := views + [Current()];
      ghost var threeViews := twoViews + [InFlightView(Generating)];
      assert views == threeViews;
      var third := SynthesizeImage(studentId, FinalPrompt(userDesc.value, clothDesc.value));
      calls := calls + [third];
      assert calls == [first, second, third];
      var image := respond(third);
      if image.Err? {
        Fail(image.error);
        views := views + [Current()];
        assert views == threeViews + [FailedView(image.error)];
        assert spec == Run(calls, views);
        return;
      }

      resultImg := Some(ResultPrefix + image.value);
      step := Success;
      views := views + [Current()];
      assert views == threeViews + [View(Success, None, Some(ResultPrefix + image.value))];
      assert spec == Run(calls, views);
    }

    /** `reset`: back to `setup` with result and error cleared; the form is kept. */
    method Reset()
      modifies this`step, this`errorMsg, this`resultImg
      ensures Valid() && Current() == View(Setup, None, None)
      ensures studentId == old(studentId) && personImg == old(personImg) && clothImg == old(clothImg)
    {
      resultImg := None;
      step := Setup;
      errorMsg := None;
    }
  }
}
