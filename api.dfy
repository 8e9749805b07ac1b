/** The client of the remote AI service (services/api.ts): the status-to-message
    table, the shape of the two POST requests, and how a response becomes
    either the extracted value or a thrown error. The network exchange itself
    is a parameter `fetch` from request to response. */
module Api {
  import opened Wrappers
  import opened Types
  import JsText

  const UnauthorizedMessage: string := "驗證失敗：請檢查學號格式是否正確 (Ex: st_A...)"
  const NotFoundMessage: string := "系統錯誤：API 路徑不存在，請聯繫管理員。"
  const MethodNotAllowedMessage: string := "請求錯誤：請使用 POST 方法。"
  const ServerErrorMessage: string := "生成失敗：伺服器內部錯誤或圖片格式不支援，請重試。"
  const UnknownPrefix: string := "未知錯誤 ("
  const UnknownSuffix: string := ")，請稍後再試。"

  /** The statuses `handleApiError` has a dedicated message for. */
  predicate IsMappedStatus(status: int)
  {
    status == 401 || status == 404 || status == 405 || status == 500
  }

  /** Reads the status back out of a generic "unknown error" message;
      `None` for any other text. */
  function StatusOfMessage(message: string): Option<int>
  {
    if |message| >= |UnknownPrefix| + |UnknownSuffix|
       && message[..|UnknownPrefix|] == UnknownPrefix
       && message[|message| - |UnknownSuffix|..] == UnknownSuffix
    then JsText.ParseInteger(message[|UnknownPrefix|..|message| - |UnknownSuffix|])
    else None
  }

  /** `handleApiError`: a total map from HTTP status to a user-facing message.
      The message is never empty, and an unmapped status can be read back from it. */
  function HandleApiError(status: int): (message: string)
    ensures message != []
    ensures StatusOfMessage(message) == if IsMappedStatus(status) then None else Some(status)
    ensures !IsMappedStatus(status) ==>
              && |message| == |UnknownPrefix| + |JsText.NumberToString(status)| + |UnknownSuffix|
              && message[|UnknownPrefix|..|message| - |UnknownSuffix|] == JsText.NumberToString(status)
  {
    match status
    case 401 => assert UnauthorizedMessage[0] != UnknownPrefix[0]; UnauthorizedMessage
    case 404 => assert NotFoundMessage[0] != UnknownPrefix[0]; NotFoundMessage
    case 405 => assert MethodNotAllowedMessage[0] != UnknownPrefix[0]; MethodNotAllowedMessage
    case 500 => assert ServerErrorMessage[0] != UnknownPrefix[0]; ServerErrorMessage
    case _ =>
      var digits := JsText.NumberToString(status);
      var message := UnknownPrefix + digits + UnknownSuffix;
      assert message[..|UnknownPrefix|] == UnknownPrefix;
      assert message[|message| - |UnknownSuffix|..] == UnknownSuffix;
      assert message[|UnknownPrefix|..|message| - |UnknownSuffix|] == digits;
      JsText.NumberToStringRoundTrip(status);
      message
  }

  /** The four mapped statuses get their four fixed, pairwise distinct messages. */
  lemma MappedStatusMessages()
    ensures HandleApiError(401) == UnauthorizedMessage
    ensures HandleApiError(404) == NotFoundMessage
    ensures HandleApiError(405) == MethodNotAllowedMessage
    ensures HandleApiError(500) == ServerErrorMessage
    ensures UnauthorizedMessage != NotFoundMessage && UnauthorizedMessage != MethodNotAllowedMessage
    ensures UnauthorizedMessage != ServerErrorMessage && NotFoundMessage != MethodNotAllowedMessage
    ensures NotFoundMessage != ServerErrorMessage && MethodNotAllowedMessage != ServerErrorMessage
  {
  }

  /** Distinct statuses are reported with distinct messages. */
  lemma HandleApiErrorInjective(a: int, b: int)
    requires HandleApiError(a) == HandleApiError(b)
    ensures a == b
  {
  }

  /** The Authorization header value: the fixed prefix `st_` and the raw student id. */
  const AuthPrefix: string := "st_"

  function Authorization(studentId: string): (value: string)
    ensures IdentityOf(value) == Some(studentId)
  {
    AuthPrefix + studentId
  }

  /** The student id a header value built by `Authorization` carries. */
  function IdentityOf(value: string): Option<string>
  {
    if |value| >= |AuthPrefix| && value[..|AuthPrefix|] == AuthPrefix then Some(value[|AuthPrefix|..]) else None
  }

  const ImageToTextPath: string := "/image-to-text"
  const TextToImagePath: string := "/text-to-image"
  const JpegMime: string := "image/jpeg"

  /** A request part: `{text}` or `{inline_data: {mime_type, data}}`. */
  datatype Part = TextItem(text: string) | InlineItem(inlineData: InlineData)
  datatype Content = Content(parts: seq<Part>)

  /** A POST with a JSON body `{contents}`; `path` is relative to the service's base address. */
  datatype Request = Request(path: string, authorization: string, contents: seq<Content>)

  /** The prompt a request body carries: the text of the first part of its only content. */
  function PromptOf(r: Request): Option<string>
  {
    if |r.contents| == 1 && |r.contents[0].parts| >= 1 && r.contents[0].parts[0].TextItem?
    then Some(r.contents[0].parts[0].text) else None
  }

  /** The image a request body carries: the second and last part of its only content. */
  function ImageOf(r: Request): Option<InlineData>
  {
    if |r.contents| == 1 && |r.contents[0].parts| == 2 && r.contents[0].parts[1].InlineItem?
    then Some(r.contents[0].parts[1].inlineData) else None
  }

  /** The image-to-text request: one content holding the prompt, then the image
      declared as JPEG. */
  function ImageToTextRequest(studentId: string, base64Image: string, prompt: string): (r: Request)
    ensures r.path == ImageToTextPath && IdentityOf(r.authorization) == Some(studentId)
    ensures PromptOf(r) == Some(prompt)
    ensures ImageOf(r) == Some(InlineData(JpegMime, base64Image))
  {
    Request(ImageToTextPath, Authorization(studentId),
            [Content([TextItem(prompt), InlineItem(InlineData(JpegMime, base64Image))])])
  }

  /** The text-to-image request: one content holding only the prompt. */
  function TextToImageRequest(studentId: string, prompt: string): (r: Request)
    ensures r.path == TextToImagePath && IdentityOf(r.authorization) == Some(studentId)
    ensures PromptOf(r) == Some(prompt) && |r.contents[0].parts| == 1
    ensures ImageOf(r) == None
  {
    Request(TextToImagePath, Authorization(studentId), [Content([TextItem(prompt)])])
  }

  /** An HTTP response. Its JSON body is only read when the status is ok. */
  datatype Response<B> = Response(status: int, body: B)

  /** `response.ok`: a status in the range 200-299. */
  predicate IsOk(status: int)
  {
    200 <= status <= 299
  }

  /** What a call throws: the `ApiError` for a non-ok status, or the runtime
      error of reading `property` of the `undefined` an empty `candidates`
      or `parts` array yields at index 0. */
  datatype Failure = HttpFailure(error: ApiError) | MissingField(property: string)

  /** `imageToText`: sends the request, throws `ApiError{status, handleApiError(status)}`
      on a non-ok status, else returns the text of the first part of the first candidate. */
  function ImageToText(studentId: string, base64Image: string, prompt: string,
                       fetch: Request -> Response<ImageToTextResponse>): (r: Result<string, Failure>)
    ensures var resp := fetch(ImageToTextRequest(studentId, base64Image, prompt));
            && (!IsOk(resp.status) <==> r == Err(HttpFailure(ApiError(resp.status, HandleApiError(resp.status)))))
            && (r.Ok? <==> IsOk(resp.status) && resp.body.candidates != []
                                && resp.body.candidates[0].content.parts != [])
            && (IsOk(resp.status) && resp.body.candidates == [] <==> r == Err(MissingField("content")))
            && (IsOk(resp.status) && resp.body.candidates != [] && resp.body.candidates[0].content.parts == []
                <==> r == Err(MissingField("text")))
            && (r.Ok? ==> r.value == resp.body.candidates[0].content.parts[0].text)
  {
    var resp := fetch(ImageToTextRequest(studentId, base64Image, prompt));
    if !IsOk(resp.status) then
      Err(HttpFailure(ApiError(resp.status, HandleApiError(resp.status))))
    else if resp.body.candidates == [] then
      Err(MissingField("content"))
    else if resp.body.candidates[0].content.parts == [] then
      Err(MissingField("text"))
    else
      Ok(resp.body.candidates[0].content.parts[0].text)
  }

  /** `textToImage`: as `imageToText`, returning the inline image data of the first
      part of the first candidate. */
  function TextToImage(studentId: string, prompt: string,
                       fetch: Request -> Response<TextToImageResponse>): (r: Result<string, Failure>)
    ensures var resp := fetch(TextToImageRequest(studentId, prompt));
            && (!IsOk(resp.status) <==> r == Err(HttpFailure(ApiError(resp.status, HandleApiError(resp.status)))))
            && (r.Ok? <==> IsOk(resp.status) && resp.body.candidates != []
                                && resp.body.candidates[0].content.parts != [])
            && (IsOk(resp.status) && resp.body.candidates == [] <==> r == Err(MissingField("content")))
            && (IsOk(resp.status) && resp.body.candidates != [] && resp.body.candidates[0].content.parts == []
                <==> r == Err(MissingField("inline_data")))
            && (r.Ok? ==> r.value == resp.body.candidates[0].content.parts[0].inlineData.data)
  {
    var resp := fetch(TextToImageRequest(studentId, prompt));
    if !IsOk(resp.status) then
      Err(HttpFailure(ApiError(resp.status, HandleApiError(resp.status))))
    else if resp.body.candidates == [] then
      Err(MissingField("content"))
    else if resp.body.candidates[0].content.parts == [] then
      Err(MissingField("inline_data"))
    else
      Ok(resp.body.candidates[0].content.parts[0].inlineData.data)
  }
}
