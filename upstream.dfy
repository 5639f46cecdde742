/**
  * The outbound side of the adapters: the requests they send and the replies
  * they read. The providers themselves are oracles, total functions from a
  * request to a reply, passed in by the caller; nothing about them is assumed
  * beyond the shape of the reply.
  */
module Upstream {
  import opened Wrappers
  import opened Base64

  /** One element of a chat-completions `messages` list. */
  datatype ChatMessage = ChatMessage(role: string, content: string)

  /** A Gemini `Part` holding text. */
  datatype Part = TextPart(text: string)

  /** A Gemini `Content`: a role (`user` or `model`) and its parts. */
  datatype Content = Content(role: string, parts: seq<Part>)

  /** What Gemini's `generate_content` receives as `contents`: a bare prompt or a role-tagged list. */
  datatype GeminiContents = PromptText(text: string) | ContentList(items: seq<Content>)

  /** One `{"image_url": ...}` element of an image edit request. */
  datatype ImageRef = ImageRef(imageUrl: string)

  /** The fixed configuration of a Gemini image request. */
  datatype ImagenConfig = ImagenConfig(
    numberOfImages: nat,
    aspectRatio: string,
    safetyFilterLevel: string,
    personGeneration: string)

  /** The `image_bytes` of a generated image as the SDK hands it over. */
  datatype ImagePayload = TextData(text: string) | ByteData(bytes: seq<byte>) | NoData

  /** Every outbound request the core can make, with the body it sends. */
  datatype Call =
    | ChatCompletion(model: string, messages: seq<ChatMessage>)
    | ImageGeneration(model: string, prompt: string, quality: string, n: nat, size: string)
    | ImageEdit(model: string, prompt: string, images: seq<ImageRef>, n: nat, size: string, quality: string)
    | GenerateContent(model: string, contents: GeminiContents, systemInstruction: Option<string>)
    | GenerateImages(model: string, prompt: string, config: ImagenConfig)

  /**
    * An HTTP reply: its status, its raw body, and the one field the caller
    * reads from the JSON body (`choices[0].message.content` or
    * `data[0].b64_json`) when it is present.
    */
  datatype HttpReply = HttpReply(status: int, text: string, field: Option<string>)

  /** A reply of the Gemini SDK: a value, or the error it raised. */
  datatype SdkReply<T> = SdkOk(value: T) | SdkError(detail: string)

  /** The OpenAI REST API, seen through `requests.post`. */
  datatype OpenAIApi = OpenAIApi(post: Call -> HttpReply)

  /** The Gemini SDK's `client.models` calls. */
  datatype GeminiApi = GeminiApi(
    generateContent: Call -> SdkReply<string>,
    generateImages: Call -> SdkReply<seq<ImagePayload>>)

  /** A reply the adapters accept: status 200 and the expected field present. */
  predicate Succeeded(reply: HttpReply) {
    reply.status == 200 && reply.field.Some?
  }
}
