/**
  The contract every delivery-platform adapter fulfils: a fixed platform name, a menu formatter
  that yields a platform document or None, and a publisher that yields true or false and never
  raises. The platform's HTTP answers to one publish attempt are an explicit `Exchange` value.
 */
module Adapters {
  import opened Wrappers
  import opened Values
  import opened MenuModels

  /** One HTTP answer: a status code and a body (None when the body is not JSON), or a transport failure. */
  datatype HttpReply = HttpReply(statusCode: int, body: Option<Json>) | TransportFailure

  /** The platform's answers to one publish attempt: to the token request, then to the menu upload. */
  datatype Exchange = Exchange(auth: HttpReply, upload: HttpReply)

  /** A request an adapter sends. */
  datatype Request =
    | PostForm(url: string, form: map<string, string>)
    | PutJson(url: string, document: Json, bearerToken: Json)

  /** What one publish attempt did: the requests it sent, and whether the platform accepted the menu. */
  datatype PublishRun = PublishRun(sent: seq<Request>, accepted: bool)

  /**
    `PlatformAdapter`: both operations must be supplied for a value of this type to exist, which
    is what the abstract methods require of a subclass.
   */
  datatype PlatformAdapter = PlatformAdapter(
    platformName: string,
    formatMenu: (seq<MenuItem>, seq<Category>) -> Option<Dict>,
    publishMenu: (string, Dict, Exchange) -> PublishRun)
}
