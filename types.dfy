/** The shared type declarations of the try-on app (types.ts). */
module Types {

  /** The six progress steps of a try-on run (types.ts:2). */
  datatype AppStep = Setup | AnalyzingUser | AnalyzingCloth | Generating | Success | Error

  /** The error value thrown for a non-ok HTTP response (types.ts:27-30). */
  datatype ApiError = ApiError(status: int, message: string)

  /** Image-to-text response: candidates -> content -> parts -> text (types.ts:4-12). */
  datatype TextPart = TextPart(text: string)
  datatype TextContent = TextContent(parts: seq<TextPart>)
  datatype TextCandidate = TextCandidate(content: TextContent)
  datatype ImageToTextResponse = ImageToTextResponse(candidates: seq<TextCandidate>)

  /** Text-to-image response: candidates -> content -> parts -> inline_data{mime_type, data}
      (types.ts:14-25). */
  datatype InlineData = InlineData(mimeType: string, data: string)
  datatype ImagePart = ImagePart(inlineData: InlineData)
  datatype ImageContent = ImageContent(parts: seq<ImagePart>)
  datatype ImageCandidate = ImageCandidate(content: ImageContent)
  datatype TextToImageResponse = TextToImageResponse(candidates: seq<ImageCandidate>)
}
